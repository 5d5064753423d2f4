/** The sender's promises, over every reachable state and every run. */
module SenderTheorems {
  import opened Errors
  import opened ConnectionStates
  import opened SenderPool
  import opened SenderProtocol
  import opened SenderInvariants
  import opened Numbers
  import opened Counting
  import opened Runs

  // ---------------------------------------------------------------- sections

  /** One of the sections of the Sender object, a lock or unlock of poolMu, or nothing. */
  ghost predicate Section(c: Core, c': Core) {
    || c' == c
    || c' == Admit(c)
    || c' == Reserve(c)
    || c' == Unreserve(c)
    || c' == SetState(c, c'.state, c'.lastErr)
    || (c.pool != [] && c' == Take(c))
    || (HasRoom(c) && |c'.pool| == |c.pool| + 1 && c' == Give(c, c'.pool[|c.pool|]))
    || c' == Depart(c)
    || c' == Shut(c)
    || (c.poolMu.None? != c'.poolMu.None? && c' == c.(poolMu := c'.poolMu))
  }

  lemma DeliverIsSection(g: Shared, t: Tid, pc: SendPc, h: History, ch: Choice)
    requires DeliverStep(g, t, pc, h, ch).To?
    ensures Section(g.core, DeliverStep(g, t, pc, h, ch).g.core)
  {
    match pc
    case Acquired(_) =>
    case Putting(_) =>
    case MarkingLost(_, _) =>
    case RedialCheck(_) =>
    case Redialling(_) =>
    case Discarding(_, _, _) =>
    case MarkingReconnected(_) =>
    case Reputting(_) =>
    case MarkingSent(_) =>
    case Releasing(_, _) =>
  }

  /** Every step of the protocol changes the Sender's own fields by one section: no step
      does the work of two critical sections of the Sender at once, and none passes
      poolMu from one thread to another. */
  lemma StepsAreSections(g: Shared, t: Tid, l: Local, ch: Choice)
    requires LocalStep(g, t, l, ch).To?
    ensures Section(g.core, LocalStep(g, t, l, ch).g.core)
  {
    match l
    case Send(pc, h) =>
      if Held(l).Some? {
        DeliverIsSection(g, t, pc, h, ch);
      } else if Acquiring(pc) {
      } else {
      }
    case Probe(_) =>
    case Close(_) =>
  }

  // -------------------------------------------------------------- accounting

  /** `created` is the idle connections, plus those checked out by sends, plus those
      being dialled, plus those a probe looks at, plus those the drain closed. */
  lemma PoolAccounting(s: State)
    requires Reachable(s)
    ensures s.g.core.created ==
            |s.g.core.pool|
            + |Where(s.threads, CheckedOut)|
            + |Where(s.threads, BeingDialled)|
            + |Where(s.threads, HeldByProbe)|
            + s.g.drained
    ensures 0 <= s.g.core.created <= s.g.core.maxConns
  {
    InvHolds(s);
    var atSends := (l: Local) => CheckedOut(l) || BeingDialled(l);
    WhereSplit(s.threads, HasSlot, atSends, HeldByProbe);
    WhereSplit(s.threads, atSends, CheckedOut, BeingDialled);
  }

  /** Every connection ever dialled has exactly one owner, and the pool and the
      threads agree on who that is: no handle is used by two sends, and none is
      both idle and in use. */
  lemma OneOwner(s: State, c: ConnId)
    requires Reachable(s) && c < |s.g.owner|
    ensures s.g.owner[c] == Idle <==> c in s.g.core.pool
    ensures forall t :: s.g.owner[c] == HeldBy(t) <==> t in s.threads && Held(s.threads[t]) == Some(c)
    ensures forall i, j :: 0 <= i < j < |s.g.core.pool| ==> s.g.core.pool[i] != s.g.core.pool[j]
  {
    InvHolds(s);
    forall t
      ensures s.g.owner[c] == HeldBy(t) <==> t in s.threads && Held(s.threads[t]) == Some(c)
    {
      if t in s.threads {
        assert Fits(s.g, t, s.threads[t]);
      } else {
        assert Absent(s.g, t);
      }
    }
  }

  lemma NoSharedHandle(s: State, t: Tid, u: Tid)
    requires Reachable(s) && t in s.threads && u in s.threads && t != u
    requires Held(s.threads[t]).Some?
    ensures Held(s.threads[t]) != Held(s.threads[u])
    ensures Held(s.threads[t]).value !in s.g.core.pool
  {
    InvHolds(s);
    assert Fits(s.g, t, s.threads[t]) && Fits(s.g, u, s.threads[u]);
  }

  predicate AboutToReturn(l: Local) {
    (l.Send? && l.pc.Releasing?) || (l.Probe? && l.pp.Restoring?)
  }

  lemma SlotLeavesRoom(s: State, t: Tid)
    requires Reachable(s) && t in s.threads && HasSlot(s.threads[t])
    ensures |s.g.core.pool| < s.g.core.maxConns
  {
    InvHolds(s);
    assert t in Where(s.threads, HasSlot);
  }

  /** `s.pool <- conn` never blocks, in a send or in a probe. */
  lemma ReturningNeverBlocks(s: State, t: Tid, ch: Choice)
    requires Reachable(s) && t in s.threads && AboutToReturn(s.threads[t])
    ensures |s.g.core.pool| < s.g.core.maxConns
    ensures Next(s, Run(t, ch)).Some?
  {
    SlotLeavesRoom(s, t);
  }

  // ------------------------------------------------------------------- sends

  /** What a returned send has done: at most two puts, the second only after the
      first lost the connection and Reconnect succeeded; a nil error means the last
      put was acknowledged; and its connection, if it ever had one, went back to the
      pool or was discarded, once. */
  lemma SendOutcome(s: State, t: Tid)
    requires Reachable(s) && t in s.threads && s.threads[t].Send? && s.threads[t].pc.Returned?
    ensures var Send(Returned(r), h) := s.threads[t];
      && |h.puts| <= 2
      && (|h.puts| == 2 <==> h.reconnected)
      && (|h.puts| == 2 ==> ConnectionLost(h.puts[0]))
      && (r.None? <==> h.puts != [] && h.puts[|h.puts| - 1].Acked?)
      && h.acquired == h.pooled + h.discarded <= 1
      && (h.acquired == 1 <==> h.puts != [])
      && (r.None? ==> h.pooled == 1)
      && (h.discarded == 1 <==> h.redialErr.Some? || (|h.puts| == 2 && !h.puts[1].Acked?))
      && (h.puts != [] ==> r == ErrorOf(h) && h.marks == MarksInAll(h))
  {
    OutcomeHolds(s, t);
    OutcomeSays(s.threads[t].h, s.threads[t].pc.result);
  }

  lemma OutcomeHolds(s: State, t: Tid)
    requires Reachable(s) && t in s.threads && s.threads[t].Send? && s.threads[t].pc.Returned?
    ensures Outcome(s.threads[t].h, s.threads[t].pc.result) && LeftEarly(s.g, t, s.threads[t].pc, s.threads[t].h)
    ensures Copies(s.g, t) == Taken(s.threads[t].h.puts)
  {
    InvHolds(s);
    assert Fits(s.g, t, s.threads[t]);
  }

  lemma OutcomeSays(h: History, r: Option<Error>)
    requires Outcome(h, r)
    ensures |h.puts| <= 2 && (|h.puts| == 2 <==> h.reconnected) && (|h.puts| == 2 ==> ConnectionLost(h.puts[0]))
    ensures r.None? <==> h.puts != [] && h.puts[|h.puts| - 1].Acked?
    ensures h.acquired == h.pooled + h.discarded <= 1 && (h.acquired == 1 <==> h.puts != []) && (r.None? ==> h.pooled == 1)
    ensures h.discarded == 1 <==> h.redialErr.Some? || (|h.puts| == 2 && !h.puts[1].Acked?)
    ensures h.puts != [] ==> r == ErrorOf(h) && h.marks == MarksInAll(h)
  {
  }

  /** A send that returned without a put: the error of its dial, which is on record unless
      its context had ended; or the context's error, and then it had ended; or
      ErrClientClosed, and then the sender was closed. */
  lemma EarlyOutcome(s: State, t: Tid)
    requires Reachable(s) && t in s.threads && s.threads[t].Send? && s.threads[t].pc.Returned? && s.threads[t].h.puts == []
    ensures var Send(Returned(r), h) := s.threads[t];
      if h.dialErr.Some? then
        r == h.dialErr && (h.marks == [Mark(Failed, r)] || (h.marks == [] && t in s.g.cancelled))
      else
        h.marks == [] && ((r == Some(Plain(Context)) && t in s.g.cancelled) || (r == Some(CLIENT_CLOSED) && s.g.core.closed))
  {
    OutcomeHolds(s, t);
  }

  lemma {:induction false} TakenOfTwo(puts: seq<Put>)
    requires |puts| <= 2
    ensures Taken(puts) ==
            One(|puts| >= 1 && !puts[0].Refused?) + One(|puts| == 2 && !puts[1].Refused?)
  {
    assert Taken([]) == 0;
    if |puts| >= 1 {
      assert puts[..1][..0] == [];
      assert Taken(puts[..1]) == One(!puts[0].Refused?);
      assert |puts| == 1 ==> puts[..1] == puts;
    }
  }

  function LostAcks(h: History): nat {
    One(|h.puts| >= 1 && h.puts[0].AckLost?) + One(|h.puts| == 2 && h.puts[1].AckLost?)
  }

  /** A send that reports success put one copy on the queue, or two exactly when the
      first acknowledgement was lost. A send that reports an error put one copy for
      each lost acknowledgement. */
  lemma QueueGain(s: State, t: Tid)
    requires Reachable(s) && t in s.threads && s.threads[t].Send? && s.threads[t].pc.Returned?
    ensures var Send(Returned(r), h) := s.threads[t];
      && (r.None? ==> Copies(s.g, t) == if |h.puts| == 2 && h.puts[0].AckLost? then 2 else 1)
      && (r.Some? ==> Copies(s.g, t) == LostAcks(h))
  {
    OutcomeHolds(s, t);
    OutcomeSays(s.threads[t].h, s.threads[t].pc.result);
    TakenOfTwo(s.threads[t].h.puts);
  }

  // ------------------------------------------------------------------ probes

  /** The probe refines the simple form: whatever the pool showed, the answer is
      that of the snapshot, and the three branches for contradictory snapshots are
      never taken. */
  lemma ProbeAnswersSnapshot(s: State, t: Tid)
    requires Reachable(s) && t in s.threads && s.threads[t].Probe? && s.threads[t].pp.Answered?
    ensures var Answered(snap, answer) := s.threads[t].pp;
      && answer == SimpleAnswer(snap)
      && (answer == Alive <==> !snap.closed && snap.state != Reconnecting && snap.state != Failed && snap.created != 0)
      && (answer == NoEntry <==> !snap.closed && snap.state != Reconnecting && snap.state != Failed && snap.created == 0)
      && (answer == Dead(SenderClosed) <==> snap.closed)
      && (answer == Dead(InState(Reconnecting)) <==> !snap.closed && snap.state == Reconnecting)
      && (!snap.closed && snap.state == Failed <==> snap.lastErr.Some? && answer == Dead(InStateAfter(Failed, snap.lastErr.value)))
  {
    InvHolds(s);
    assert Fits(s.g, t, s.threads[t]);
  }

  /** Why: an idle connection is always up, a closed one is down for good, and an error is
      on record exactly in the two failure states. */
  lemma PooledConnectionsAreUp(s: State)
    requires Reachable(s)
    ensures forall c :: c in s.g.core.pool ==> c < |s.g.conn| && s.g.conn[c] == Connected
    ensures forall c :: 0 <= c < |s.g.owner| && s.g.owner[c] == Gone ==> c < |s.g.conn| && s.g.conn[c] == Failed
    ensures s.g.core.lastErr.Some? <==> s.g.core.state == Reconnecting || s.g.core.state == Failed
    ensures s.g.core.state == Stopped ==> s.g.core.closed
  {
    InvHolds(s);
  }

  // ---------------------------------------------------------------- shutdown

  predicate Barrier(l: Local) {
    l.Close? && (l.cp.Draining? || l.cp.Finished?)
  }

  /** Once `close` drains, no send is in flight; while it drains, no probe holds a
      connection. */
  lemma NoSendPastBarrier(s: State, t: Tid, u: Tid)
    requires Reachable(s) && t in s.threads && Barrier(s.threads[t]) && u in s.threads
    ensures s.g.core.closed && !InFlight(s.threads[u])
    ensures s.threads[t].cp.Draining? ==> Held(s.threads[u]).None?
  {
    InvHolds(s);
    assert Fits(s.g, t, s.threads[t]);
    assert |Where(s.threads, InFlight)| == 0;
    assert u !in Where(s.threads, InFlight);
    assert Fits(s.g, u, s.threads[u]);
  }

  /** And none can ever start: this holds at every later state of every run. */
  lemma {:induction false} NoSendAfterBarrier(s: State, t: Tid, steps: seq<Step>, u: Tid)
    requires Reachable(s) && t in s.threads && Barrier(s.threads[t])
    requires Exec(Next, s, steps).Some? && u in Exec(Next, s, steps).value.threads
    ensures !InFlight(Exec(Next, s, steps).value.threads[u])
  {
    InvHolds(s);
    BarrierStays(s, t, steps);
    var s' := Exec(Next, s, steps).value;
    ExecKeepsInv(s, steps);
    assert Fits(s'.g, t, s'.threads[t]);
    assert |Where(s'.threads, InFlight)| == 0;
    assert u !in Where(s'.threads, InFlight);
  }

  lemma {:induction false} BarrierStays(s: State, t: Tid, steps: seq<Step>)
    requires t in s.threads && Barrier(s.threads[t]) && Exec(Next, s, steps).Some?
    ensures var s' := Exec(Next, s, steps).value; t in s'.threads && Barrier(s'.threads[t])
    decreases |steps|
  {
    if steps != [] {
      var s' := Next(s, steps[0]).value;
      assert t in s'.threads && Barrier(s'.threads[t]) by {
        if steps[0].Run? && steps[0].t == t {
          assert LocalStep(s.g, t, s.threads[t], steps[0].ch) == CloseStep(s.g, t, s.threads[t].cp);
        }
      }
      BarrierStays(s', t, steps[1..]);
    }
  }

  /** The drain closes min(bound, created) connections. What stays open is exactly
      the excess of `created` over the bound, so the pool ends empty exactly when no
      admitted send raised `created` above it. */
  lemma DrainLeavesExcess(s: State, t: Tid)
    requires Reachable(s) && t in s.threads && s.threads[t].Close? && s.threads[t].cp.Finished?
    ensures var Finished(bound, gone) := s.threads[t].cp; var left := s.g.core.created - bound;
      && gone == s.g.drained == Min(bound, s.g.core.created)
      && |s.g.core.pool| + |Where(s.threads, HeldByProbe)| == (if left > 0 then left else 0)
      && (Where(s.threads, HeldByProbe) == {} ==> (s.g.core.pool == [] <==> s.g.core.created <= bound))
  {
    InvHolds(s);
    assert Fits(s.g, t, s.threads[t]);
    assert |Where(s.threads, InFlight)| == 0;
    forall u | u in s.threads
      ensures !CheckedOut(s.threads[u]) && !BeingDialled(s.threads[u])
    {
      assert u !in Where(s.threads, InFlight);
    }
    assert Where(s.threads, CheckedOut) == {} && Where(s.threads, BeingDialled) == {};
    PoolAccounting(s);
  }

  /** The send can still raise `created`. */
  predicate Early(l: Local) {
    l.Send? && (l.pc.CheckingCtx? || l.pc.TryingPool? || l.pc.Reserving?)
  }

  function Bound(l: Local): Option<int> {
    match l
    case Close(AwaitingSends(b)) => Some(b)
    case Close(WantingPoolMu(b)) => Some(b)
    case Close(Draining(b, _, _)) => Some(b)
    case Close(Finished(b, _)) => Some(b)
    case _ => None
  }

  /** `close` call `t` read bound `b`, and nothing can push `created` past it. */
  ghost predicate Quiet(s: State, t: Tid, b: int) {
    && s.g.core.closed && s.g.core.created <= b
    && t in s.threads && Bound(s.threads[t]) == Some(b)
    && (forall u :: u in s.threads ==> !Early(s.threads[u]))
  }

  /** Past its creation decision a send never raises `created` and never begins to wait. */
  lemma LateSend(g: Shared, t: Tid, pc: SendPc, h: History, ch: Choice)
    requires !Early(Send(pc, h)) && SendStep(g, t, pc, h, ch).To?
    ensures var To(g', l') := SendStep(g, t, pc, h, ch);
      && l'.Send?
      && g'.core.closed == g.core.closed && g'.core.created <= g.core.created
      && (Early(l') ==> pc.Admitting? && !g.core.closed)
      && (l'.pc.Waiting? ==> pc.Waiting?)
  {
    match pc
    case Admitting =>
    case Waiting(_) =>
    case DialCheck =>
    case Dialling =>
    case Unreserving(_) =>
    case CheckingDialCtx(_) =>
    case MarkingFailed(_) =>
    case Acquired(_) =>
    case Putting(_) =>
    case MarkingLost(_, _) =>
    case RedialCheck(_) =>
    case Redialling(_) =>
    case Discarding(_, _, _) =>
    case Uncounting(_, _) =>
    case MarkingReconnected(_) =>
    case Reputting(_) =>
    case MarkingSent(_) =>
    case Releasing(_, _) =>
    case Leaving(_) =>
  }

  lemma QuietStep(g: Shared, t: Tid, l: Local, ch: Choice)
    requires g.core.closed && !Early(l) && LocalStep(g, t, l, ch).To?
    ensures var To(g', l') := LocalStep(g, t, l, ch);
      g'.core.closed && g'.core.created <= g.core.created && !Early(l') && (Bound(l).Some? ==> Bound(l') == Bound(l))
  {
    if l.Send? {
      LateSend(g, t, l.pc, l.h, ch);
    }
  }

  lemma {:induction false} QuietStays(s: State, t: Tid, b: int, steps: seq<Step>)
    requires Quiet(s, t, b) && Exec(Next, s, steps).Some?
    ensures Quiet(Exec(Next, s, steps).value, t, b)
    decreases |steps|
  {
    if steps != [] {
      if steps[0].Run? {
        QuietStep(s.g, steps[0].t, s.threads[steps[0].t], steps[0].ch);
      }
      QuietStays(Next(s, steps[0]).value, t, b, steps[1..]);
    }
  }

  /** A check before the fact: if no send stands between its admission and its
      creation decision when `close` reads its bound, every run of that `close` ends
      with an empty pool. */
  lemma QuietCloseEmptiesPool(s: State, t: Tid, steps: seq<Step>)
    requires Reachable(s) && t in s.threads && s.threads[t] == Close(AwaitingSends(s.g.core.created))
    requires forall u :: u in s.threads ==> !Early(s.threads[u])
    requires Exec(Next, s, steps).Some?
    ensures var s' := Exec(Next, s, steps).value;
      t in s'.threads &&
      (s'.threads[t].Close? && s'.threads[t].cp.Finished? && Where(s'.threads, HeldByProbe) == {} ==> s'.g.core.pool == [])
  {
    InvHolds(s);
    assert Fits(s.g, t, s.threads[t]);
    QuietStays(s, t, s.g.core.created, steps);
    ReachableExec(s, steps);
    var s' := Exec(Next, s, steps).value;
    if s'.threads[t].Close? && s'.threads[t].cp.Finished? {
      DrainLeavesExcess(s', t);
    }
  }

  lemma ReachableExec(s: State, steps: seq<Step>)
    requires Reachable(s) && Exec(Next, s, steps).Some?
    ensures Reachable(Exec(Next, s, steps).value)
  {
    var maxConns: nat :| maxConns >= 1 && Reaches(Next, Init(maxConns), s);
    ReachesOn(Next, Init(maxConns), s, steps);
  }

  lemma ReachableNext(s: State, step: Step)
    requires Reachable(s) && Next(s, step).Some?
    ensures Reachable(Next(s, step).value)
  {
    OneStep(Next, s, step);
    ReachableExec(s, [step]);
  }

  // ----------------------------------------------------------------- waiting

  /** A send starts to wait only when the limit is reached. */
  lemma WaitingStartsAtLimit(s: State, t: Tid, ch: Choice)
    requires Reachable(s) && t in s.threads && s.threads[t].Send? && !s.threads[t].pc.Waiting?
    requires Next(s, Run(t, ch)).Some?
    ensures var l' := Next(s, Run(t, ch)).value.threads[t];
      l'.Send? && l'.pc.Waiting? ==> s.g.core.created == s.g.core.maxConns && l'.pc.since == s.g.drops
  {
    InvHolds(s);
    var Send(pc, h) := s.threads[t];
    if !Early(s.threads[t]) {
      LateSend(s.g, t, pc, h, ch);
    }
  }

  /** The drain has not begun while a send is in flight. */
  lemma NothingDrainedBefore(s: State)
    requires Inv(s) && s.g.core.wg > 0
    ensures s.g.drained == 0
    ensures forall t :: s.g.closer == Some(t) ==> t in s.threads && s.threads[t].Close? && s.threads[t].cp.AwaitingSends?
  {
    if s.g.closer.Some? {
      var t := s.g.closer.value;
      assert t !in s.threads ==> Absent(s.g, t);
      assert Fits(s.g, t, s.threads[t]);
    }
  }
}
