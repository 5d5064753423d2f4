/** Exactly when `close` can leave a connection open, from any reachable state, with
    any number of sends and probes under way. */
module SenderLeak {
  import opened Errors
  import opened SenderPool
  import opened SenderProtocol
  import opened SenderInvariants
  import opened SenderTheorems
  import opened SenderOutlook
  import opened SenderCensus
  import opened Counting
  import opened Runs

  /** `close` call t is over and a connection is still open in the pool. */
  ghost predicate LeavesOpen(s: State, t: Tid) {
    && t in s.threads && s.threads[t].Close? && s.threads[t].cp.Finished?
    && Where(s.threads, HeldByProbe) == {} && s.g.core.pool != []
  }

  // ------------------------------------------------------------------ necessity

  /** `close` call t read bound b, and no run can end above it. */
  ghost predicate OutOfReach(s: State, t: Tid, b: int) {
    && s.g.core.closed && !CanExceed(CensusOf(s), b)
    && t in s.threads && Bound(s.threads[t]) == Some(b)
  }

  lemma NoneInFlight(s: State)
    requires WaitGroup(s) && s.g.core.wg == 0
    ensures Count(s, Doomed) == Count(s, Deciding) == Count(s, Looking) == Count(s, Taking) == Count(s, Lapsed) == 0
  {
    forall u | u in s.threads ensures !InFlight(s.threads[u]) {
      assert u !in Where(s.threads, InFlight);
    }
    assert Those(s.threads, s.g.cancelled, Doomed) == {} && Those(s.threads, s.g.cancelled, Deciding) == {};
    assert Those(s.threads, s.g.cancelled, Looking) == {} && Those(s.threads, s.g.cancelled, Taking) == {};
    assert Those(s.threads, s.g.cancelled, Lapsed) == {};
  }

  lemma RunOutOfReach(s: State, t: Tid, b: int, u: Tid, ch: Choice, m: Move)
    requires OutOfReach(s, t, b) && u in s.threads && LocalStep(s.g, u, s.threads[u], ch) == m && m.To?
    requires Agrees(CensusOf(s), s.g.core, s.threads[u], u in s.g.cancelled)
    requires s.threads[u].Close? && s.threads[u].cp.Draining? ==> Count(s, Looking) == 0
    ensures OutOfReach(After(s, u, m), t, b)
  {
    HopelessMove(CensusOf(s), s.g, u, s.threads[u], ch, b);
    CancelledStays(s.g, u, s.threads[u], ch);
    CensusAfter(s, u, m);
    if u == t {
      BoundKept(s.g, t, s.threads[t], ch);
    }
  }

  lemma DrainingSeesNoLook(s: State, u: Tid)
    requires Inv(s) && u in s.threads
    ensures s.threads[u].Close? && s.threads[u].cp.Draining? ==> Count(s, Looking) == 0
  {
    assert Fits(s.g, u, s.threads[u]);
    if s.threads[u].Close? && s.threads[u].cp.Draining? {
      NoneInFlight(s);
    }
  }

  lemma BoundKept(g: Shared, t: Tid, l: Local, ch: Choice)
    requires LocalStep(g, t, l, ch).To? && Bound(l).Some?
    ensures Bound(LocalStep(g, t, l, ch).l) == Bound(l)
  {
  }

  /** A new call plays no role. */
  lemma CensusCalled(s: State, u: Tid, l: Local)
    requires u !in s.threads && Entry(l)
    ensures CensusOf(s.(threads := s.threads[u := l])) == CensusOf(s)
  {
    NotCounted(s, u, l, Doomed);
    NotCounted(s, u, l, Deciding);
    NotCounted(s, u, l, Looking);
    NotCounted(s, u, l, Taking);
    NotCounted(s, u, l, Lapsed);
    NotCounted(s, u, l, Probing);
    NotCounted(s, u, l, Peeked);
  }

  lemma NotCounted(s: State, u: Tid, l: Local, p: (Local, bool) -> bool)
    requires u !in s.threads && !p(l, u in s.g.cancelled)
    ensures Count(s.(threads := s.threads[u := l]), p) == Count(s, p)
  {
    ThoseUpdate(s.threads, s.g.cancelled, u, l, p);
  }

  lemma CallOutOfReach(s: State, t: Tid, b: int, u: Tid, l: Local)
    requires OutOfReach(s, t, b) && u !in s.threads && Entry(l)
    ensures OutOfReach(s.(threads := s.threads[u := l]), t, b)
  {
    CensusCalled(s, u, l);
  }

  /** The census after the context of u ended. */
  lemma CensusCancelled(s: State, u: Tid)
    requires u in s.threads
    ensures var s' := s.(g := s.g.(cancelled := s.g.cancelled + {u}));
      CensusOf(s') == Lapse(CensusOf(s), s.threads[u], u in s.g.cancelled)
  {
    ThoseMarked(s.threads, s.g.cancelled, u, Doomed);
    ThoseMarked(s.threads, s.g.cancelled, u, Deciding);
    ThoseMarked(s.threads, s.g.cancelled, u, Looking);
    ThoseMarked(s.threads, s.g.cancelled, u, Taking);
    ThoseMarked(s.threads, s.g.cancelled, u, Lapsed);
    ThoseMarked(s.threads, s.g.cancelled, u, Probing);
    ThoseMarked(s.threads, s.g.cancelled, u, Peeked);
  }

  lemma CancelOutOfReach(s: State, t: Tid, b: int, u: Tid)
    requires OutOfReach(s, t, b) && (u in s.threads ==> Agrees(CensusOf(s), s.g.core, s.threads[u], u in s.g.cancelled))
    ensures OutOfReach(s.(g := s.g.(cancelled := s.g.cancelled + {u})), t, b)
  {
    if u in s.threads {
      CensusCancelled(s, u);
      HopelessLapse(CensusOf(s), s.g, u, s.threads[u], b);
    } else {
      StrangerCancelled(s, u);
    }
  }

  lemma StrangerCancelled(s: State, u: Tid)
    requires u !in s.threads
    ensures CensusOf(s.(g := s.g.(cancelled := s.g.cancelled + {u}))) == CensusOf(s)
  {
    ThoseMarked(s.threads, s.g.cancelled, u, Doomed);
    ThoseMarked(s.threads, s.g.cancelled, u, Deciding);
    ThoseMarked(s.threads, s.g.cancelled, u, Looking);
    ThoseMarked(s.threads, s.g.cancelled, u, Taking);
    ThoseMarked(s.threads, s.g.cancelled, u, Lapsed);
    ThoseMarked(s.threads, s.g.cancelled, u, Probing);
    ThoseMarked(s.threads, s.g.cancelled, u, Peeked);
  }

  lemma NextOutOfReach(s: State, t: Tid, b: int, step: Step)
    requires Inv(s) && OutOfReach(s, t, b) && Next(s, step).Some?
    ensures OutOfReach(Next(s, step).value, t, b)
  {
    match step
    case Call(u, l) => CallOutOfReach(s, t, b, u, l);
    case Cancel(u) =>
      if u in s.threads {
        CensusAgrees(s, u);
      }
      CancelOutOfReach(s, t, b, u);
    case Run(u, ch) =>
      CensusAgrees(s, u);
      DrainingSeesNoLook(s, u);
      RunOutOfReach(s, t, b, u, ch, LocalStep(s.g, u, s.threads[u], ch));
  }

  lemma {:induction false} StaysOutOfReach(s: State, t: Tid, b: int, steps: seq<Step>)
    requires Inv(s) && OutOfReach(s, t, b) && Exec(Next, s, steps).Some?
    ensures OutOfReach(Exec(Next, s, steps).value, t, b)
    decreases |steps|
  {
    if steps != [] {
      NextOutOfReach(s, t, b, steps[0]);
      NextKeepsInv(s, steps[0]);
      StaysOutOfReach(Next(s, steps[0]).value, t, b, steps[1..]);
    }
  }

  /** Out of reach means that every run of `close` empties the pool. */
  lemma OutOfReachEmpties(s: State, t: Tid, b: int)
    requires Reachable(s) && OutOfReach(s, t, b)
    ensures !LeavesOpen(s, t)
  {
    if LeavesOpen(s, t) {
      DrainLeavesExcess(s, t);
      InvHolds(s);
      assert Fits(s.g, t, s.threads[t]);
      NoneInFlight(s);
      PoolAccounting(s);
    }
  }

  // ---------------------------------------------------------------- sufficiency

  /** A move of call t that keeps the bound within reach and is nearer the end. */
  ghost predicate Advances(c: Census, g: Shared, t: Tid, l: Local, m: Move, bound: int) {
    && m.To? && Rank(m.l) < Rank(l)
    && CanExceed(Shift(c, l, m.l, t in g.cancelled, m.g.core), bound)
  }

  ghost predicate Within(c: Census, g: Shared, t: Tid, l: Local, bound: int) {
    Agrees(c, g.core, l, t in g.cancelled) && CanExceed(c, bound)
  }

  lemma DroppingAdvances(c: Census, g: Shared, t: Tid, l: Local, bound: int)
    requires Within(c, g, t, l, bound) && Direct(c, bound) && Doomed(l, t in g.cancelled)
    ensures Advances(c, g, t, l, LocalStep(g, t, l, Auto), bound)
  {
    DoomedMoves(g, t, l);
  }

  lemma FinishingAdvances(c: Census, g: Shared, t: Tid, l: Local, m: Move, bound: int)
    requires Within(c, g, t, l, bound) && c.created - c.doomed > bound
    requires m.To? && m.g.core.maxConns == g.core.maxConns && Onward(g, t, l, m.g, m.l)
    ensures Advances(c, g, t, l, m, bound)
  {
  }

  lemma TakingAdvances(c: Census, g: Shared, t: Tid, l: Local, bound: int)
    requires Within(c, g, t, l, bound) && Taking(l, t in g.cancelled) && g.core.pool != []
    ensures Advances(c, g, t, l, LocalStep(g, t, l, Lucky(l)), bound)
  {
  }

  lemma PeekingAdvances(c: Census, g: Shared, t: Tid, l: Local, bound: int)
    requires Within(c, g, t, l, bound) && g.core.pool != [] && c.peeked == 0
    requires l.Probe? && (l.pp.Peeking? || l.pp.Unlocking? || (l.pp.WantingMu? && g.core.poolMu.None?))
    ensures Advances(c, g, t, l, LocalStep(g, t, l, Auto), bound)
  {
    match l.pp
    case Peeking(_) =>
    case Unlocking(_, _) =>
    case WantingMu(_) =>
  }

  lemma CreatingAdvances(c: Census, g: Shared, t: Tid, l: Local, bound: int)
    requires Within(c, g, t, l, bound) && Deciding(l, t in g.cancelled) && CanReserve(g.core)
    ensures Advances(c, g, t, l, LocalStep(g, t, l, Auto), bound)
  {
  }

  lemma LookingAdvances(c: Census, g: Shared, t: Tid, l: Local, bound: int)
    requires Within(c, g, t, l, bound) && Looking(l, t in g.cancelled) && Direct(c, bound)
    requires Sure(c) <= bound && (c.idle > 0 ==> Takers(c) == 0)
    ensures Advances(c, g, t, l, LocalStep(g, t, l, Auto), bound)
  {
    if l.pc.CheckingCtx? {
    } else if g.core.pool == [] {
    } else {
    }
  }

  lemma TurningAdvances(c: Census, g: Shared, t: Tid, l: Local, bound: int)
    requires Within(c, g, t, l, bound) && Lapsed(l, t in g.cancelled) && !Direct(c, bound)
    requires Takers(c) == 0 && (c.deciding == 0 || !CanReserve(g.core))
    ensures Advances(c, g, t, l, LocalStep(g, t, l, Auto), bound)
  {
    if CanReserve(g.core) {
    } else {
    }
  }

  lemma OneOf(s: State, p: (Local, bool) -> bool) returns (u: Tid)
    requires Count(s, p) > 0
    ensures u in s.threads && p(s.threads[u], u in s.g.cancelled)
  {
    u :| u in Those(s.threads, s.g.cancelled, p);
  }

  /** The probe to run so that one of them takes an idle connection. */
  lemma ProbeToRun(s: State) returns (u: Tid)
    requires Inv(s) && s.g.core.wg > 0 && Count(s, Probing) > 0 && Count(s, Peeked) == 0
    ensures u in s.threads && var l := s.threads[u];
      l.Probe? && (l.pp.Peeking? || l.pp.Unlocking? || (l.pp.WantingMu? && s.g.core.poolMu.None?))
  {
    if s.g.core.poolMu.Some? {
      u := s.g.core.poolMu.value;
      assert u !in s.threads ==> Absent(s.g, u);
      assert Fits(s.g, u, s.threads[u]);
      assert u !in Those(s.threads, s.g.cancelled, Peeked);
    } else {
      u := OneOf(s, Probing);
      assert Fits(s.g, u, s.threads[u]);
    }
  }

  /** The bound is sure to be exceeded, or slots are still doomed: let the doomed slots go,
      and then let everyone finish. */
  lemma ChooseFinisher(s: State, b: int, w: Tid) returns (u: Tid, ch: Choice)
    requires Inv(s) && CanExceed(CensusOf(s), b) && Direct(CensusOf(s), b)
    requires CensusOf(s).doomed > 0 || CensusOf(s).created > b
    requires w in s.threads && InFlight(s.threads[w]) && !Stalled(s.g, s.threads[w])
    ensures u in s.threads && Advances(CensusOf(s), s.g, u, s.threads[u], LocalStep(s.g, u, s.threads[u], ch), b)
  {
    var c := CensusOf(s);
    if c.doomed > 0 {
      ch := Auto;
      u := OneOf(s, Doomed);
      CensusAgrees(s, u);
      DroppingAdvances(c, s.g, u, s.threads[u], b);
    } else {
      u, ch := w, Lucky(s.threads[w]);
      CensusAgrees(s, w);
      Finisher(s, w);
      FinishingAdvances(c, s.g, w, s.threads[w], LocalStep(s.g, w, s.threads[w], ch), b);
    }
  }

  /** An idle connection that some call can take away. */
  lemma ChooseTaker(s: State, b: int) returns (u: Tid, ch: Choice)
    requires Inv(s) && s.g.core.wg > 0 && CanExceed(CensusOf(s), b)
    requires CensusOf(s).idle > 0 && Takers(CensusOf(s)) > 0
    ensures u in s.threads && Advances(CensusOf(s), s.g, u, s.threads[u], LocalStep(s.g, u, s.threads[u], ch), b)
  {
    var c := CensusOf(s);
    if c.taking > 0 {
      u := OneOf(s, Taking);
      ch := Lucky(s.threads[u]);
      CensusAgrees(s, u);
      TakingAdvances(c, s.g, u, s.threads[u], b);
    } else {
      ch := Auto;
      u := ProbeToRun(s);
      CensusAgrees(s, u);
      PeekingAdvances(c, s.g, u, s.threads[u], b);
    }
  }

  /** No idle connection can be taken away: create, look, or turn a lapsed send. */
  lemma ChooseCreator(s: State, b: int) returns (u: Tid)
    requires Inv(s) && CanExceed(CensusOf(s), b)
    requires Direct(CensusOf(s), b) ==> CensusOf(s).doomed == 0 && CensusOf(s).created <= b
    requires CensusOf(s).idle > 0 ==> Takers(CensusOf(s)) == 0
    ensures u in s.threads && Advances(CensusOf(s), s.g, u, s.threads[u], LocalStep(s.g, u, s.threads[u], Auto), b)
  {
    var c := CensusOf(s);
    if c.deciding > 0 && CanReserve(s.g.core) {
      u := OneOf(s, Deciding);
      CensusAgrees(s, u);
      CreatingAdvances(c, s.g, u, s.threads[u], b);
    } else if Direct(c, b) {
      u := OneOf(s, Looking);
      CensusAgrees(s, u);
      LookingAdvances(c, s.g, u, s.threads[u], b);
    } else {
      u := OneOf(s, Lapsed);
      CensusAgrees(s, u);
      TurningAdvances(c, s.g, u, s.threads[u], b);
    }
  }

  /** The call to run next, and how. */
  lemma Choose(s: State, b: int, w: Tid) returns (u: Tid, ch: Choice, m: Move)
    requires Inv(s) && s.g.core.wg > 0 && CanExceed(CensusOf(s), b)
    requires w in s.threads && InFlight(s.threads[w]) && !Stalled(s.g, s.threads[w])
    ensures u in s.threads && LocalStep(s.g, u, s.threads[u], ch) == m
    ensures Advances(CensusOf(s), s.g, u, s.threads[u], m, b)
  {
    var c := CensusOf(s);
    if Direct(c, b) && (c.doomed > 0 || c.created > b) {
      u, ch := ChooseFinisher(s, b, w);
    } else if c.idle > 0 && Takers(c) > 0 {
      u, ch := ChooseTaker(s, b);
    } else {
      ch := Auto;
      u := ChooseCreator(s, b);
    }
    m := LocalStep(s.g, u, s.threads[u], ch);
  }

  lemma Finisher(s: State, w: Tid)
    requires Inv(s) && w in s.threads && InFlight(s.threads[w]) && !Stalled(s.g, s.threads[w])
    ensures var m := LocalStep(s.g, w, s.threads[w], Lucky(s.threads[w]));
      m.To? && m.g.core.maxConns == s.g.core.maxConns && Onward(s.g, w, s.threads[w], m.g, m.l)
  {
    if HasSlot(s.threads[w]) {
      SlotHasRoom(s, w);
    }
    LuckySend(s.g, w, s.threads[w].pc, s.threads[w].h);
    CancelledStays(s.g, w, s.threads[w], Lucky(s.threads[w]));
  }

  /** `close` call t waits with bound b for the sends in flight, and b can be exceeded. */
  ghost predicate InReach(s: State, t: Tid, b: int) {
    Inv(s) && t in s.threads && s.threads[t] == Close(AwaitingSends(b)) && CanExceed(CensusOf(s), b)
  }

  lemma StaysInReach(s: State, t: Tid, b: int, u: Tid, m: Move)
    requires t in s.threads && s.threads[t] == Close(AwaitingSends(b)) && u in s.threads
    requires Advances(CensusOf(s), s.g, u, s.threads[u], m, b) && m.g.cancelled == s.g.cancelled
    ensures CanExceed(CensusOf(After(s, u, m)), b)
    ensures After(s, u, m).threads[t] == Close(AwaitingSends(b))
  {
    CensusAfter(s, u, m);
  }

  lemma RunsOn(s: State, t: Tid, b: int, w: Tid) returns (steps: seq<Step>, s': State)
    requires InReach(s, t, b) && s.g.core.wg > 0
    requires w in s.threads && InFlight(s.threads[w]) && !Stalled(s.g, s.threads[w])
    ensures Along(Next, s, steps, s') && InReach(s', t, b)
    ensures Total(s'.threads, Rank) < Total(s.threads, Rank)
  {
    var u, ch, m := Choose(s, b, w);
    Nearer(s, u, ch, m);
    CancelledStays(s.g, u, s.threads[u], ch);
    StaysInReach(s, t, b, u, m);
    steps, s' := [Run(u, ch)], After(s, u, m);
    OneStep(Next, s, Run(u, ch));
  }

  lemma WaitingLapses(s: State, u: Tid) returns (s1: State)
    requires u in s.threads && s.threads[u].Send? && s.threads[u].pc.Waiting?
    ensures Next(s, Cancel(u)) == Some(s1) && s1.threads == s.threads && u in s1.g.cancelled
    ensures CensusOf(s1) == CensusOf(s)
  {
    s1 := Next(s, Cancel(u)).value;
    CensusCancelled(s, u);
  }

  lemma GivesUp(s: State, u: Tid) returns (m: Move)
    requires u in s.threads && s.threads[u].Send? && s.threads[u].pc.Waiting? && u in s.g.cancelled
    ensures m == To(s.g, Send(Leaving(Some(Plain(Context))), s.threads[u].h))
    ensures Next(s, Run(u, GiveUp)) == Some(After(s, u, m))
    ensures Rank(m.l) < Rank(s.threads[u])
  {
    m := To(s.g, Send(Leaving(Some(Plain(Context))), s.threads[u].h));
  }

  lemma LeavingKeepsSure(s: State, u: Tid, m: Move)
    requires u in s.threads && s.threads[u].Send? && s.threads[u].pc.Waiting?
    requires m.To? && m.g == s.g && m.l.Send? && m.l.pc.Leaving?
    ensures Sure(CensusOf(After(s, u, m))) == Sure(CensusOf(s)) && CensusOf(After(s, u, m)).limit == CensusOf(s).limit
  {
    CensusAfter(s, u, m);
  }

  /** `close` call t waits with bound b, and `created` is above it for good. */
  ghost predicate Exceeded(s: State, t: Tid, b: int) {
    && t in s.threads && s.threads[t] == Close(AwaitingSends(b))
    && Sure(CensusOf(s)) > b && b < CensusOf(s).limit
  }

  /** The context of a waiting send ends, and it leaves. */
  lemma Retires(s: State, t: Tid, b: int, u: Tid) returns (s1: State, s': State)
    requires Exceeded(s, t, b) && u in s.threads && s.threads[u].Send? && s.threads[u].pc.Waiting?
    ensures Next(s, Cancel(u)) == Some(s1) && Next(s1, Run(u, GiveUp)) == Some(s')
    ensures Exceeded(s', t, b)
    ensures Total(s'.threads, Rank) < Total(s.threads, Rank)
  {
    s1 := WaitingLapses(s, u);
    var m := GivesUp(s1, u);
    s' := After(s1, u, m);
    LeavingKeepsSure(s1, u, m);
    TotalDrops(s1.threads, u, m.l);
  }

  lemma RetiresOne(s: State, t: Tid, b: int, u: Tid) returns (steps: seq<Step>, s': State)
    requires Exceeded(s, t, b) && u in s.threads && s.threads[u].Send? && s.threads[u].pc.Waiting?
    ensures Along(Next, s, steps, s') && Exceeded(s', t, b)
    ensures Total(s'.threads, Rank) < Total(s.threads, Rank)
  {
    var s1;
    s1, s' := Retires(s, t, b, u);
    steps := [Cancel(u)] + [Run(u, GiveUp)];
    TwoSteps(Next, s, Cancel(u), s1, Run(u, GiveUp), s');
  }

  /** When every send in flight waits at an empty pool, the bound is exceeded already. */
  lemma AllStalled(s: State, b: int)
    requires CanExceed(CensusOf(s), b)
    requires forall u :: u in s.threads && InFlight(s.threads[u]) ==> Stalled(s.g, s.threads[u])
    ensures Sure(CensusOf(s)) > b
  {
    assert Those(s.threads, s.g.cancelled, Looking) == {};
  }

  lemma OneFurther(s: State, t: Tid, b: int) returns (steps: seq<Step>, s': State)
    requires InReach(s, t, b) && s.g.core.wg > 0
    ensures Along(Next, s, steps, s') && InReach(s', t, b)
    ensures Total(s'.threads, Rank) < Total(s.threads, Rank)
  {
    if w :| w in s.threads && InFlight(s.threads[w]) && !Stalled(s.g, s.threads[w]) {
      steps, s' := RunsOn(s, t, b, w);
    } else {
      AllStalled(s, b);
      var u := SomeSend(s);
      steps, s' := RetiresOne(s, t, b, u);
      InvAlong(s, steps, s');
      ExceededInReach(s', t, b);
    }
  }

  lemma SomeSend(s: State) returns (u: Tid)
    requires WaitGroup(s) && s.g.core.wg > 0
    ensures u in s.threads && InFlight(s.threads[u])
  {
    u :| u in Where(s.threads, InFlight);
  }

  lemma InvAlong(s: State, steps: seq<Step>, s': State)
    requires Inv(s) && Along(Next, s, steps, s')
    ensures Inv(s')
  {
    ExecKeepsInv(s, steps);
  }

  lemma ExceededInReach(s: State, t: Tid, b: int)
    requires Inv(s) && Exceeded(s, t, b)
    ensures InReach(s, t, b)
  {
  }

  /** Some run lets every send finish and ends above the bound. */
  lemma {:induction false} SendsFinish(s: State, t: Tid, b: int) returns (steps: seq<Step>, s': State)
    requires InReach(s, t, b)
    ensures Along(Next, s, steps, s') && InReach(s', t, b) && s'.g.core.wg == 0
    decreases Total(s.threads, Rank)
  {
    if s.g.core.wg == 0 {
      return [], s;
    }
    var a, s1 := OneFurther(s, t, b);
    var rest;
    rest, s' := SendsFinish(s1, t, b);
    Joined(Next, s, a, s1, rest, s');
    steps := a + rest;
  }

  /** All sends are over, `close` call t is about to drain, and `created` is above its bound. */
  ghost predicate Drainable(s: State, t: Tid, b: int) {
    && t in s.threads && s.threads[t] == Close(AwaitingSends(b))
    && s.g.core.wg == 0 && s.g.core.created > b
  }

  lemma SentPastBound(s: State, t: Tid, b: int)
    requires InReach(s, t, b) && s.g.core.wg == 0
    ensures Drainable(s, t, b)
  {
    NoneInFlight(s);
  }

  /** The probe that holds poolMu, if any. */
  lemma LockHolder(s: State, t: Tid, b: int) returns (u: Tid)
    requires Inv(s) && Drainable(s, t, b) && s.g.core.poolMu.Some?
    ensures u in s.threads && s.threads[u].Probe? && HoldsPoolMu(s.threads[u])
    ensures HasSlot(s.threads[u]) ==> HasRoom(s.g.core)
  {
    u := s.g.core.poolMu.value;
    assert u !in s.threads ==> Absent(s.g, u);
    assert Fits(s.g, u, s.threads[u]) && Fits(s.g, t, s.threads[t]);
    if HasSlot(s.threads[u]) {
      SlotHasRoom(s, u);
    }
  }

  lemma HolderMoves(g: Shared, t: Tid, l: Local)
    requires l.Probe? && HoldsPoolMu(l) && (HasSlot(l) ==> HasRoom(g.core))
    ensures LocalStep(g, t, l, Auto).To?
    ensures var m := LocalStep(g, t, l, Auto);
      Rank(m.l) < Rank(l) && m.g.core.wg == g.core.wg && m.g.core.created == g.core.created
  {
  }

  /** The probes let go of poolMu. */
  lemma {:induction false} LockFrees(s: State, t: Tid, b: int) returns (steps: seq<Step>, s': State)
    requires Inv(s) && Drainable(s, t, b)
    ensures Along(Next, s, steps, s') && Inv(s') && Drainable(s', t, b) && s'.g.core.poolMu.None?
    decreases Total(s.threads, Rank)
  {
    if s.g.core.poolMu.None? {
      return [], s;
    }
    var u := LockHolder(s, t, b);
    HolderMoves(s.g, u, s.threads[u]);
    var m := LocalStep(s.g, u, s.threads[u], Auto);
    Nearer(s, u, Auto, m);
    var s1 := After(s, u, m);
    OneStep(Next, s, Run(u, Auto));
    var rest;
    rest, s' := LockFrees(s1, t, b);
    Joined(Next, s, [Run(u, Auto)], s1, rest, s');
    steps := [Run(u, Auto)] + rest;
  }

  /** The drain runs to its end by itself. */
  lemma {:induction false} Drains(s: State, t: Tid) returns (steps: seq<Step>, s': State)
    requires t in s.threads && s.threads[t].Close? && s.threads[t].cp.Draining? && s.threads[t].cp.round <= s.threads[t].cp.bound
    ensures Along(Next, s, steps, s')
    ensures s'.g.core.created == s.g.core.created
    ensures t in s'.threads && s'.threads[t].Close? && s'.threads[t].cp.Finished? && s'.threads[t].cp.bound == s.threads[t].cp.bound
    ensures s'.threads.Keys == s.threads.Keys && forall v :: v in s.threads && v != t ==> s'.threads[v] == s.threads[v]
    decreases s.threads[t].cp.bound - s.threads[t].cp.round
  {
    var s1 := Next(s, Run(t, Auto)).value;
    OneStep(Next, s, Run(t, Auto));
    if s.threads[t].cp.round == s.threads[t].cp.bound {
      steps, s' := [Run(t, Auto)], s1;
    } else {
      steps, s' := Drains(s1, t);
      ExecConcat(Next, s, [Run(t, Auto)], steps);
      steps := [Run(t, Auto)] + steps;
    }
  }

  lemma ClosesUp(s: State, t: Tid, b: nat) returns (steps: seq<Step>, s': State)
    requires t in s.threads && s.threads[t] == Close(AwaitingSends(b)) && s.g.core.wg == 0 && s.g.core.poolMu.None?
    ensures Along(Next, s, steps, s')
    ensures s'.g.core.created == s.g.core.created
    ensures t in s'.threads && s'.threads[t].Close? && s'.threads[t].cp.Finished? && s'.threads[t].cp.bound == b
    ensures s'.threads.Keys == s.threads.Keys && forall v :: v in s.threads && v != t ==> s'.threads[v] == s.threads[v]
  {
    var s1, s2;
    steps, s1 := Append(Next, s, [], s, Run(t, Auto));
    steps, s2 := Append(Next, s, steps, s1, Run(t, Auto));
    var rest;
    rest, s' := Drains(s2, t);
    ExecConcat(Next, s, steps, rest);
    steps := steps + rest;
  }

  lemma NoPeekWithoutLock(s: State)
    requires Inv(s) && s.g.core.poolMu.None?
    ensures forall u :: u in s.threads ==> !HeldByProbe(s.threads[u])
  {
    forall u | u in s.threads ensures !HeldByProbe(s.threads[u]) {
      assert Fits(s.g, u, s.threads[u]);
    }
  }

  /** A run on which `close` ends with more created than it drained. */
  lemma ClosesBelow(s: State, t: Tid, b: int) returns (steps: seq<Step>, s': State)
    requires Inv(s) && Drainable(s, t, b) && b >= 0
    ensures Along(Next, s, steps, s')
    ensures t in s'.threads && s'.threads[t].Close? && s'.threads[t].cp.Finished? && s'.threads[t].cp.bound == b
    ensures s'.g.core.created > b && forall u :: u in s'.threads ==> !HeldByProbe(s'.threads[u])
  {
    var a, s1 := LockFrees(s, t, b);
    NoPeekWithoutLock(s1);
    var z;
    z, s' := ClosesUp(s1, t, b);
    Joined(Next, s, a, s1, z, s');
    steps := a + z;
  }

  lemma EndsOpen(s: State, t: Tid)
    requires Reachable(s) && t in s.threads && s.threads[t].Close? && s.threads[t].cp.Finished?
    requires s.threads[t].cp.bound < s.g.core.created
    requires forall v :: v in s.threads ==> !HeldByProbe(s.threads[v])
    ensures LeavesOpen(s, t)
  {
    DrainLeavesExcess(s, t);
    assert Where(s.threads, HeldByProbe) == {};
  }

  lemma Leaks(s: State, t: Tid, b: int) returns (steps: seq<Step>)
    requires Reachable(s) && InReach(s, t, b)
    ensures Exec(Next, s, steps).Some? && LeavesOpen(Exec(Next, s, steps).value, t)
  {
    assert Fits(s.g, t, s.threads[t]);
    var a, s1 := SendsFinish(s, t, b);
    SentPastBound(s1, t, b);
    var z, s2 := ClosesBelow(s1, t, b);
    Joined(Next, s, a, s1, z, s2);
    steps := a + z;
    ReachableExec(s, steps);
    EndsOpen(s2, t);
  }

  // -------------------------------------------------------------------- theorem

  /** Exactly when: a `close` that waits for the sends in flight can end with a
      connection still open in the pool if and only if the census lets `created`
      end above the bound it read. */
  lemma LeakPossibleIff(s: State, t: Tid)
    requires Reachable(s) && t in s.threads && s.threads[t].Close? && s.threads[t].cp.AwaitingSends?
    ensures (exists steps :: Exec(Next, s, steps).Some? && LeavesOpen(Exec(Next, s, steps).value, t))
            <==> CanExceed(CensusOf(s), s.threads[t].cp.bound)
  {
    InvHolds(s);
    assert Fits(s.g, t, s.threads[t]);
    var b := s.threads[t].cp.bound;
    if CanExceed(CensusOf(s), b) {
      var steps := Leaks(s, t, b);
    } else {
      forall steps | Exec(Next, s, steps).Some?
        ensures !LeavesOpen(Exec(Next, s, steps).value, t)
      {
        StaysOutOfReach(s, t, b, steps);
        ReachableExec(s, steps);
        OutOfReachEmpties(Exec(Next, s, steps).value, t, b);
      }
    }
  }

  lemma CreatorsSplit(s: State)
    ensures Count(s, Creator) == Count(s, Deciding) + Count(s, Looking)
  {
    var deciding, looking := Those(s.threads, s.g.cancelled, Deciding), Those(s.threads, s.g.cancelled, Looking);
    assert Those(s.threads, s.g.cancelled, Creator) == deciding + looking;
    assert deciding !! looking;
  }

  /** In particular, when the bound was read with no connection idle: exactly when the
      limit was not reached and more sends could still create than slots were doomed. */
  lemma LeakPossibleIffEmptyPool(s: State, t: Tid)
    requires Reachable(s) && t in s.threads && s.threads[t] == Close(AwaitingSends(s.g.core.created))
    requires s.g.core.pool == []
    ensures (exists steps :: Exec(Next, s, steps).Some? && LeavesOpen(Exec(Next, s, steps).value, t))
            <==> s.g.core.created < s.g.core.maxConns && Count(s, Creator) > Count(s, Doomed)
  {
    LeakPossibleIff(s, t);
    CreatorsSplit(s);
  }
}
