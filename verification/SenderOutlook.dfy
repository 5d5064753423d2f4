/** What a call on the sender can still do: which slots are bound to be given up,
    which can still yield a connection, and that no call is ever stuck except on an
    empty pool. */
module SenderOutlook {
  import opened Errors
  import opened SenderPool
  import opened SenderProtocol
  import opened SenderInvariants
  import opened SenderTheorems
  import opened Counting

  /** The slot will be given up whatever happens. `over` says that the context of the
      call has ended: the retry loops then stop at their next look at it. */
  predicate Doomed(l: Local, over: bool) {
    && l.Send?
    && match l.pc
       case Discarding(_, _, _) => true
       case Uncounting(_, _) => true
       case Unreserving(_) => true
       case MarkingLost(_, _) => over
       case RedialCheck(_) => over
       case DialCheck => over
       case _ => false
  }

  /** The slot can still become an idle connection. */
  predicate Prospect(l: Local, over: bool) {
    HasSlot(l) && !Doomed(l, over)
  }

  /** The send can still create a connection and keep it. */
  predicate Creator(l: Local, over: bool) {
    Early(l) && !over
  }

  /** The outcome that keeps a connection alive. */
  function Lucky(l: Local): Choice {
    match l
    case Send(Dialling, _) => DialOk
    case Send(Putting(_), _) => PutAck
    case Send(Reputting(_), _) => PutAck
    case Send(Redialling(_), _) => RedialOk
    case Send(Waiting(_), _) => Receive
    case _ => Auto
  }

  /** The most steps a call still takes while it is lucky. */
  function Rank(l: Local): nat {
    match l
    case Send(pc, _) => (
      match pc
      case Admitting => 25
      case CheckingCtx => 24
      case TryingPool => 23
      case Reserving => 22
      case Waiting(_) => 21
      case DialCheck => 20
      case Dialling => 19
      case Acquired(_) => 18
      case Putting(_) => 17
      case MarkingLost(_, _) => 16
      case RedialCheck(_) => 15
      case Redialling(_) => 14
      case MarkingReconnected(_) => 13
      case Reputting(_) => 12
      case MarkingSent(_) => 11
      case Releasing(_, _) => 10
      case Discarding(_, _, _) => 9
      case Uncounting(_, _) => 8
      case Unreserving(_) => 7
      case CheckingDialCtx(_) => 6
      case MarkingFailed(_) => 5
      case Leaving(_) => 4
      case Returned(_) => 0
    )
    case Probe(pp) => (
      match pp
      case Snapping => 6
      case WantingMu(_) => 5
      case Peeking(_) => 4
      case Inspecting(_, _) => 3
      case Restoring(_, _, _) => 2
      case Unlocking(_, _) => 1
      case Answered(_, _) => 0
    )
    case Close(_) => 0
  }

  predicate Stalled(g: Shared, l: Local) {
    l.Send? && l.pc.Waiting? && g.core.pool == []
  }

  /** A step of u that brings its call nearer to its end, and that lowers `created` only
      by a slot that was doomed before. */
  predicate Onward(g: Shared, t: Tid, l: Local, g': Shared, l': Local) {
    var over := t in g.cancelled;
    && Rank(l') < Rank(l)
    && g'.core.created - One(Doomed(l', over)) >= g.core.created - One(Doomed(l, over))
  }

  lemma LuckyHolder(g: Shared, t: Tid, pc: SendPc, h: History)
    requires Held(Send(pc, h)).Some? && HasRoom(g.core)
    ensures LocalStep(g, t, Send(pc, h), Lucky(Send(pc, h))).To?
    ensures var To(g', l') := LocalStep(g, t, Send(pc, h), Lucky(Send(pc, h))); Onward(g, t, Send(pc, h), g', l')
  {
    match pc
    case Acquired(_) =>
    case Putting(_) =>
    case MarkingLost(_, _) =>
    case RedialCheck(_) =>
    case Redialling(_) =>
    case Discarding(_, _, _) =>
    case MarkingReconnected(_) =>
    case Reputting(_) =>
    case MarkingSent(_) =>
    case Releasing(_, _) =>
  }

  /** A send in flight moves on while it is lucky. */
  lemma LuckySend(g: Shared, t: Tid, pc: SendPc, h: History)
    requires InFlight(Send(pc, h)) && !Stalled(g, Send(pc, h)) && (HasSlot(Send(pc, h)) ==> HasRoom(g.core))
    ensures LocalStep(g, t, Send(pc, h), Lucky(Send(pc, h))).To?
    ensures var To(g', l') := LocalStep(g, t, Send(pc, h), Lucky(Send(pc, h))); Onward(g, t, Send(pc, h), g', l')
  {
    if Held(Send(pc, h)).Some? {
      LuckyHolder(g, t, pc, h);
    } else {
      match pc
      case CheckingCtx =>
      case TryingPool =>
      case Reserving =>
      case Waiting(_) =>
      case DialCheck =>
      case Dialling =>
      case Unreserving(_) =>
      case CheckingDialCtx(_) =>
      case MarkingFailed(_) =>
      case Uncounting(_, _) =>
      case Leaving(_) =>
    }
  }

  /** A prospect that is lucky stays one until its connection is idle. */
  lemma LuckyProspect(g: Shared, t: Tid, l: Local)
    requires Prospect(l, t in g.cancelled) && HasRoom(g.core)
    ensures LocalStep(g, t, l, Lucky(l)).To?
    ensures var To(g', l') := LocalStep(g, t, l, Lucky(l));
      && Rank(l') < Rank(l)
      && (g'.core.pool != [] || Prospect(l', t in g'.cancelled))
  {
    if l.Send? {
      match l.pc
      case DialCheck =>
      case Dialling =>
      case Acquired(_) =>
      case Putting(_) =>
      case MarkingLost(_, _) =>
      case RedialCheck(_) =>
      case Redialling(_) =>
      case MarkingReconnected(_) =>
      case Reputting(_) =>
      case MarkingSent(_) =>
      case Releasing(_, _) =>
    }
  }

  /** A creator that finds no idle connection and room for one more goes on to create. */
  lemma LuckyCreator(g: Shared, t: Tid, l: Local)
    requires Creator(l, t in g.cancelled) && g.core.pool == []
    requires l.pc.Reserving? ==> CanReserve(g.core)
    ensures LocalStep(g, t, l, Auto).To?
    ensures var To(g', l') := LocalStep(g, t, l, Auto);
      Rank(l') < Rank(l) && (Creator(l', t in g'.cancelled) || Prospect(l', t in g'.cancelled))
  {
  }

  /** A doomed slot is on its way out and touches nothing else. */
  lemma DoomedMoves(g: Shared, t: Tid, l: Local)
    requires Doomed(l, t in g.cancelled)
    ensures LocalStep(g, t, l, Auto).To?
    ensures var To(g', l') := LocalStep(g, t, l, Auto); var over := t in g.cancelled;
      && Rank(l') < Rank(l)
      && l'.Send? && !Early(l') && !l'.pc.Waiting?
      && g'.core.created - One(Doomed(l', over)) == g.core.created - 1
      && g'.core.pool == g.core.pool && g'.core.maxConns == g.core.maxConns
  {
    match l.pc
    case Discarding(_, _, _) =>
    case Uncounting(_, _) =>
    case Unreserving(_) =>
    case MarkingLost(_, _) =>
    case RedialCheck(_) =>
    case DialCheck =>
  }

  // ----------------------------------------------------------------- progress

  lemma SlotHasRoom(s: State, t: Tid)
    requires Inv(s) && t in s.threads && HasSlot(s.threads[t])
    ensures HasRoom(s.g.core)
  {
    assert t in Where(s.threads, HasSlot);
  }

  /** Whatever the environment answers, a send in flight is never stuck, except one
      that waits with a live context while the pool is empty; and the holder of
      poolMu is never stuck. */
  lemma NeverStuck(s: State, t: Tid)
    requires Reachable(s) && t in s.threads
    ensures InFlight(s.threads[t]) ==>
              ((exists ch :: Next(s, Run(t, ch)).Some?) <==> !(Stalled(s.g, s.threads[t]) && t !in s.g.cancelled))
    ensures s.g.core.poolMu == Some(t) ==> Next(s, Run(t, Auto)).Some?
  {
    InvHolds(s);
    assert Fits(s.g, t, s.threads[t]);
    if HasSlot(s.threads[t]) {
      SlotHasRoom(s, t);
    }
    if InFlight(s.threads[t]) {
      if !Stalled(s.g, s.threads[t]) {
        LuckySend(s.g, t, s.threads[t].pc, s.threads[t].h);
        assert Next(s, Run(t, Lucky(s.threads[t]))).Some?;
      } else if t in s.g.cancelled {
        assert Next(s, Run(t, GiveUp)).Some?;
      }
    }
  }

  /** So a probe blocks only on poolMu, whose holder can move, and `close` blocks
      only on that or on a send in flight. */
  lemma OthersBlockOnlyOnLocks(s: State, t: Tid)
    requires Reachable(s) && t in s.threads && !s.threads[t].Send? && Next(s, Run(t, Auto)).None?
    ensures
      || (s.threads[t].Probe? && s.threads[t].pp.Answered?)
      || (s.threads[t].Close? && (s.threads[t].cp.Finished? || s.threads[t].cp.AlreadyClosed?))
      || (exists u :: s.g.core.poolMu == Some(u) && u != t && u in s.threads && Next(s, Run(u, Auto)).Some?)
      || (s.threads[t].Close? && s.threads[t].cp.AwaitingSends? && exists u :: u in s.threads && InFlight(s.threads[u]))
  {
    InvHolds(s);
    assert Fits(s.g, t, s.threads[t]);
    if HoldsPoolMu(s.threads[t]) {
      NeverStuck(s, t);
    } else if s.g.core.poolMu.Some? {
      var u := s.g.core.poolMu.value;
      assert u !in s.threads ==> Absent(s.g, u);
      NeverStuck(s, u);
    } else if s.threads[t].Close? && s.threads[t].cp.AwaitingSends? {
      var u :| u in Where(s.threads, InFlight);
    }
  }

  // -------------------------------------------------------------- run building

  /** The state after thread u moved. */
  function After(s: State, u: Tid, m: Move): State
    requires m.To?
  {
    State(m.g, s.threads[u := m.l])
  }

  lemma TotalDrops(threads: map<Tid, Local>, u: Tid, l: Local)
    requires u in threads && Rank(l) < Rank(threads[u])
    ensures Total(threads[u := l], Rank) < Total(threads, Rank)
  {
    TotalUpdate(threads, Rank, u, l);
  }

  /** One step of u, towards the end of u's call. */
  lemma Nearer(s: State, u: Tid, ch: Choice, m: Move)
    requires Inv(s) && u in s.threads && LocalStep(s.g, u, s.threads[u], ch) == m && m.To?
    requires Rank(m.l) < Rank(s.threads[u])
    ensures Next(s, Run(u, ch)) == Some(After(s, u, m)) && Inv(After(s, u, m))
    ensures Total(After(s, u, m).threads, Rank) < Total(s.threads, Rank)
  {
    NextKeepsInv(s, Run(u, ch));
    TotalDrops(s.threads, u, m.l);
  }

  /** No step ends a context or moves the limit. */
  ghost predicate Leaves(g: Shared, m: Move) {
    m.To? ==> m.g.cancelled == g.cancelled && m.g.core.maxConns == g.core.maxConns
  }

  lemma DeliverLeaves(g: Shared, t: Tid, pc: SendPc, h: History, ch: Choice)
    ensures Leaves(g, DeliverStep(g, t, pc, h, ch))
  {
  }

  lemma AcquireLeaves(g: Shared, t: Tid, pc: SendPc, h: History, ch: Choice)
    ensures Leaves(g, AcquireStep(g, t, pc, h, ch))
  {
  }

  lemma CancelledStays(g: Shared, t: Tid, l: Local, ch: Choice)
    requires LocalStep(g, t, l, ch).To?
    ensures Leaves(g, LocalStep(g, t, l, ch))
  {
    match l
    case Send(pc, h) =>
      if Held(l).Some? {
        DeliverLeaves(g, t, pc, h, ch);
      } else if Acquiring(pc) {
        AcquireLeaves(g, t, pc, h, ch);
      }
    case Probe(_) =>
    case Close(_) =>
  }
}
