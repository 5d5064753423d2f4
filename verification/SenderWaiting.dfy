/** The send that waits for a connection: who can still serve it, and exactly when
    no one can. */
module SenderWaiting {
  import opened Errors
  import opened SenderPool
  import opened SenderProtocol
  import opened SenderInvariants
  import opened SenderTheorems
  import opened SenderOutlook
  import opened Counting
  import opened Runs

  ghost predicate Waits(s: State, t: Tid) {
    t in s.threads && s.threads[t].Send? && s.threads[t].pc.Waiting?
  }

  /** Thread u can still put a connection into the pool. */
  predicate Productive(s: State, u: Tid) {
    u in s.threads && (Prospect(s.threads[u], u in s.g.cancelled) || Creator(s.threads[u], u in s.g.cancelled))
  }

  /** Until `created` goes down again, the idle connections, the prospects and the
      doomed slots make up the limit: exactly maxConns connections can still reach
      the waiting send unless a slot is doomed. */
  lemma WaiterProspects(s: State, t: Tid)
    requires Reachable(s) && Waits(s, t)
    ensures s.threads[t].pc.since <= s.g.drops
    ensures s.threads[t].pc.since == s.g.drops ==>
              |s.g.core.pool| + |Those(s.threads, s.g.cancelled, Prospect)| + |Those(s.threads, s.g.cancelled, Doomed)|
              == s.g.core.maxConns
  {
    InvHolds(s);
    assert Fits(s.g, t, s.threads[t]);
    assert t in Where(s.threads, InFlight);
    NothingDrainedBefore(s);
    SlotsSplit(s);
  }

  lemma SlotsSplit(s: State)
    ensures |Where(s.threads, HasSlot)| ==
            |Those(s.threads, s.g.cancelled, Prospect)| + |Those(s.threads, s.g.cancelled, Doomed)|
  {
    var prospects, doomed := Those(s.threads, s.g.cancelled, Prospect), Those(s.threads, s.g.cancelled, Doomed);
    assert Where(s.threads, HasSlot) == prospects + doomed;
    assert prospects !! doomed;
  }

  // ------------------------------------------------------------------ stranded

  /** Closed, nothing idle, and no thread can bring anything back. */
  ghost predicate Barren(s: State) {
    && s.g.core.closed && s.g.core.pool == []
    && (forall u :: u in s.threads ==> !Productive(s, u))
  }

  ghost predicate Stranded(s: State, t: Tid) {
    Barren(s) && Waits(s, t) && t !in s.g.cancelled
  }

  /** A step after which thread t is as unproductive as before. */
  ghost predicate BarrenMove(g: Shared, t: Tid, l: Local, m: Move) {
    m.To? ==>
      && m.g.core.closed && m.g.core.pool == [] && m.g.cancelled == g.cancelled
      && !Prospect(m.l, t in g.cancelled) && !Creator(m.l, t in g.cancelled)
      && (l.Send? && l.pc.Waiting? ==> t in g.cancelled)
  }

  lemma BarrenAcquire(g: Shared, t: Tid, pc: SendPc, h: History, ch: Choice)
    requires g.core.closed && g.core.pool == [] && Acquiring(pc)
    requires !Prospect(Send(pc, h), t in g.cancelled) && !Creator(Send(pc, h), t in g.cancelled)
    ensures BarrenMove(g, t, Send(pc, h), AcquireStep(g, t, pc, h, ch))
  {
    match pc
    case CheckingCtx =>
    case TryingPool =>
    case Reserving =>
    case Waiting(_) =>
    case DialCheck =>
    case Unreserving(_) =>
    case CheckingDialCtx(_) =>
  }

  lemma BarrenRest(g: Shared, t: Tid, pc: SendPc, h: History, ch: Choice)
    requires g.core.closed && g.core.pool == [] && !Acquiring(pc)
    requires !Prospect(Send(pc, h), t in g.cancelled)
    ensures BarrenMove(g, t, Send(pc, h), SendStep(g, t, pc, h, ch))
  {
    match pc
    case Admitting =>
    case MarkingFailed(_) =>
    case MarkingLost(_, _) =>
    case RedialCheck(_) =>
    case Discarding(_, _, _) =>
    case Uncounting(_, _) =>
    case Leaving(_) =>
    case Returned(_) =>
  }

  lemma BarrenOther(g: Shared, t: Tid, l: Local, ch: Choice)
    requires g.core.closed && g.core.pool == [] && !l.Send? && !Prospect(l, t in g.cancelled)
    ensures BarrenMove(g, t, l, LocalStep(g, t, l, ch))
  {
  }

  lemma BarrenStep(g: Shared, t: Tid, l: Local, ch: Choice)
    requires g.core.closed && g.core.pool == []
    requires !Prospect(l, t in g.cancelled) && !Creator(l, t in g.cancelled)
    ensures BarrenMove(g, t, l, LocalStep(g, t, l, ch))
  {
    if l.Send? && Acquiring(l.pc) {
      BarrenAcquire(g, t, l.pc, l.h, ch);
    } else if l.Send? {
      BarrenRest(g, t, l.pc, l.h, ch);
    } else {
      BarrenOther(g, t, l, ch);
    }
  }

  lemma StrandedStep(s: State, t: Tid, step: Step)
    requires Stranded(s, t) && step != Cancel(t) && Next(s, step).Some?
    ensures Stranded(Next(s, step).value, t)
  {
    if step.Run? {
      assert !Productive(s, step.t);
      BarrenStep(s.g, step.t, s.threads[step.t], step.ch);
    }
    var s' := Next(s, step).value;
    forall u | u in s'.threads
      ensures !Productive(s', u)
    {
      assert u in s.threads ==> !Productive(s, u);
    }
  }

  /** Nothing but the end of its own context ever releases a stranded send, and
      `close` never gets past its wait for it. */
  lemma StrandedOnEveryRun(s: State, t: Tid, steps: seq<Step>)
    requires Reachable(s) && Stranded(s, t) && Exec(Next, s, steps).Some?
    requires Cancel(t) !in steps
    ensures var s' := Exec(Next, s, steps).value;
      && Stranded(s', t)
      && s'.g.closer.Some?
      && forall c :: s'.g.closer == Some(c) ==> c in s'.threads && s'.threads[c].Close? && s'.threads[c].cp.AwaitingSends?
  {
    StrandedForever(s, t, steps);
    InvHolds(s);
    ExecKeepsInv(s, steps);
    var s' := Exec(Next, s, steps).value;
    assert t in Where(s'.threads, InFlight);
    NothingDrainedBefore(s');
  }

  lemma {:induction false} StrandedForever(s: State, t: Tid, steps: seq<Step>)
    requires Stranded(s, t) && Exec(Next, s, steps).Some? && Cancel(t) !in steps
    ensures Stranded(Exec(Next, s, steps).value, t)
    decreases |steps|
  {
    if steps != [] {
      StrandedStep(s, t, steps[0]);
      StrandedForever(Next(s, steps[0]).value, t, steps[1..]);
    }
  }

  // -------------------------------------------------------------------- served

  ghost predicate Served(s: State, t: Tid, steps: seq<Step>) {
    && Cancel(t) !in steps
    && Exec(Next, s, steps).Some?
    && var s' := Exec(Next, s, steps).value;
       t in s'.threads && s'.threads[t].Send? && s'.threads[t].pc.Acquired?
  }

  lemma ServedNow(s: State, t: Tid)
    requires Waits(s, t) && s.g.core.pool != []
    ensures Served(s, t, [Run(t, Receive)])
  {
    var now := [Run(t, Receive)];
    assert now[1..] == [];
  }

  lemma ServedLater(s: State, t: Tid, step: Step, steps: seq<Step>)
    requires step != Cancel(t) && Next(s, step).Some? && Served(Next(s, step).value, t, steps)
    ensures Served(s, t, [step] + steps)
  {
    var all := [step] + steps;
    assert all[0] == step && all[1..] == steps;
  }

  /** With nothing idle and the limit reached, some thread has a slot. */
  lemma SomeSlot(s: State) returns (v: Tid)
    requires Inv(s) && s.g.core.wg > 0 && s.g.core.pool == [] && !CanReserve(s.g.core)
    ensures v in s.threads && HasSlot(s.threads[v])
  {
    NothingDrainedBefore(s);
    assert Where(s.threads, HasSlot) != {};
    v :| v in Where(s.threads, HasSlot);
  }

  /** The thread to run next when the pool is empty: a prospect if there is one; else
      a creator, unless the limit stops it, and then a doomed slot, which makes room. */
  lemma NextToRun(s: State, t: Tid, p: Tid) returns (u: Tid, ch: Choice, m: Move)
    requires Inv(s) && Waits(s, t) && s.g.core.pool == [] && Productive(s, p)
    ensures u in s.threads && u != t && LocalStep(s.g, u, s.threads[u], ch) == m && m.To?
    ensures Rank(m.l) < Rank(s.threads[u])
    ensures m.g.core.pool != [] || p != u || Prospect(m.l, u in m.g.cancelled) || Creator(m.l, u in m.g.cancelled)
  {
    assert t in Where(s.threads, InFlight);
    if Prospect(s.threads[p], p in s.g.cancelled) {
      u, ch := p, Lucky(s.threads[p]);
      SlotHasRoom(s, p);
      LuckyProspect(s.g, p, s.threads[p]);
    } else if s.threads[p].pc.Reserving? && !CanReserve(s.g.core) {
      u := SomeSlot(s);
      SlotHasRoom(s, u);
      if Doomed(s.threads[u], u in s.g.cancelled) {
        ch := Auto;
        DoomedMoves(s.g, u, s.threads[u]);
      } else {
        ch := Lucky(s.threads[u]);
        LuckyProspect(s.g, u, s.threads[u]);
      }
    } else {
      u, ch := p, Auto;
      LuckyCreator(s.g, p, s.threads[p]);
    }
    m := LocalStep(s.g, u, s.threads[u], ch);
  }

  lemma StillProductive(s: State, t: Tid, p: Tid, u: Tid, m: Move)
    requires Waits(s, t) && Productive(s, p) && u != t && m.To? && m.g.cancelled == s.g.cancelled
    requires m.g.core.pool != [] || p != u || Prospect(m.l, u in m.g.cancelled) || Creator(m.l, u in m.g.cancelled)
    ensures Waits(After(s, u, m), t)
    ensures m.g.core.pool != [] || Productive(After(s, u, m), p)
  {
  }

  lemma OneNearer(s: State, t: Tid, p: Tid) returns (step: Step, s': State)
    requires Inv(s) && Waits(s, t) && s.g.core.pool == [] && Productive(s, p)
    ensures step.Run? && Next(s, step) == Some(s') && Inv(s') && Waits(s', t)
    ensures s'.g.core.pool != [] || Productive(s', p)
    ensures Total(s'.threads, Rank) < Total(s.threads, Rank)
  {
    var u, ch, m := NextToRun(s, t, p);
    step, s' := Run(u, ch), After(s, u, m);
    Nearer(s, u, ch, m);
    CancelledStays(s.g, u, s.threads[u], ch);
    StillProductive(s, t, p, u, m);
  }

  /** A productive thread brings a connection to the waiting send. */
  lemma {:induction false} Serves(s: State, t: Tid, p: Tid) returns (steps: seq<Step>)
    requires Inv(s) && Waits(s, t) && (s.g.core.pool != [] || Productive(s, p))
    ensures Served(s, t, steps)
    decreases Total(s.threads, Rank)
  {
    if s.g.core.pool != [] {
      ServedNow(s, t);
      steps := [Run(t, Receive)];
    } else {
      var step, s' := OneNearer(s, t, p);
      steps := Serves(s', t, p);
      ServedLater(s, t, step, steps);
      steps := [step] + steps;
    }
  }

  lemma Fresh(used: set<Tid>) returns (t: Tid)
    ensures t !in used
  {
    t := 0;
    var seen: set<Tid> := {};
    while t in used
      invariant seen <= used && |seen| == t && forall x :: x in seen ==> x < t
      decreases |used - seen|
    {
      seen := seen + {t};
      t := t + 1;
    }
  }

  const SEND := Send(Admitting, NOTHING_YET)

  /** An open sender admits a send. */
  lemma Admitted(s: State, u: Tid) returns (s1: State, s2: State)
    requires !s.g.core.closed && u !in s.threads && u !in s.g.cancelled
    ensures Next(s, Call(u, SEND)) == Some(s1) && Next(s1, Run(u, Auto)) == Some(s2)
    ensures Productive(s2, u)
    ensures forall t :: t in s.threads ==> t in s2.threads && s2.threads[t] == s.threads[t]
  {
    s1 := Next(s, Call(u, SEND)).value;
    s2 := Next(s1, Run(u, Auto)).value;
  }

  /** So while it is open a new send can come and create. */
  lemma NewcomerServes(s: State, t: Tid) returns (steps: seq<Step>)
    requires Inv(s) && Waits(s, t) && !s.g.core.closed
    ensures Served(s, t, steps)
  {
    var u := Fresh(s.threads.Keys + s.g.cancelled);
    var s1, s2 := Admitted(s, u);
    NextKeepsInv(s, Call(u, SEND));
    NextKeepsInv(s1, Run(u, Auto));
    steps := Serves(s2, t, u);
    ServedLater(s1, t, Run(u, Auto), steps);
    ServedLater(s, t, Call(u, SEND), [Run(u, Auto)] + steps);
    steps := [Call(u, SEND)] + ([Run(u, Auto)] + steps);
  }

  /** Exactly when: a send that waits with a live context can still be served if and
      only if the sender is open, or a connection is idle, or some thread is
      productive. */
  lemma WaiterServedIff(s: State, t: Tid)
    requires Reachable(s) && Waits(s, t) && t !in s.g.cancelled
    ensures (exists steps :: Served(s, t, steps))
            <==> !s.g.core.closed || s.g.core.pool != [] || exists u :: Productive(s, u)
  {
    InvHolds(s);
    if s.g.core.pool != [] {
      var steps := Serves(s, t, t);
    } else if u :| Productive(s, u) {
      var steps := Serves(s, t, u);
    } else if !s.g.core.closed {
      var steps := NewcomerServes(s, t);
    } else {
      forall steps ensures !Served(s, t, steps) {
        if Cancel(t) !in steps && Exec(Next, s, steps).Some? {
          StrandedForever(s, t, steps);
        }
      }
    }
  }

  /** In particular every prospect can serve every waiting send. */
  lemma ProspectServes(s: State, t: Tid, u: Tid) returns (steps: seq<Step>)
    requires Reachable(s) && Waits(s, t) && u in s.threads && Prospect(s.threads[u], u in s.g.cancelled)
    ensures Served(s, t, steps)
  {
    InvHolds(s);
    steps := Serves(s, t, u);
  }
}
