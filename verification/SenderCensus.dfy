/** A census of the calls under way on a sender that is being closed. The drain takes
    as many connections as were created when `close` read its bound, so something
    stays open on those runs that end with more. Whether there is such a run is read
    off the census: who is bound to give its slot up, who can still create, and who
    can clear idle connections out of a creator's way. Here: once the census says no,
    every step keeps it so. */
module SenderCensus {
  import opened SenderPool
  import opened SenderProtocol
  import opened SenderInvariants
  import opened SenderTheorems
  import opened SenderOutlook
  import opened Counting

  // -------------------------------------------------------------------- census

  /** About to create, with a live context. */
  predicate Deciding(l: Local, over: bool) {
    l.Send? && l.pc.Reserving? && !over
  }

  /** Before its look into the pool, with a live context. */
  predicate Looking(l: Local, over: bool) {
    l.Send? && (l.pc.CheckingCtx? || l.pc.TryingPool?) && !over
  }

  /** Can take an idle connection but will not create one that stays. */
  predicate Taking(l: Local, over: bool) {
    l.Send? && (l.pc.Waiting? || (l.pc.TryingPool? && over))
  }

  /** At the creation decision after its context has ended. */
  predicate Lapsed(l: Local, over: bool) {
    l.Send? && l.pc.Reserving? && over
  }

  predicate Probing(l: Local, over: bool) {
    l.Probe? && (l.pp.WantingMu? || l.pp.Peeking?)
  }

  predicate Peeked(l: Local, over: bool) {
    HeldByProbe(l)
  }

  datatype Census = Census(
    created: int, limit: int, idle: int,
    doomed: int, deciding: int, looking: int, taking: int, lapsed: int, probing: int, peeked: int)

  function Count(s: State, p: (Local, bool) -> bool): nat {
    |Those(s.threads, s.g.cancelled, p)|
  }

  function CensusOf(s: State): Census {
    Census(s.g.core.created, s.g.core.maxConns, |s.g.core.pool|,
           Count(s, Doomed), Count(s, Deciding), Count(s, Looking), Count(s, Taking),
           Count(s, Lapsed), Count(s, Probing), Count(s, Peeked))
  }

  /** Calls that can take an idle connection away; of the probes only one at a time. */
  function Takers(c: Census): int {
    c.taking + One(c.peeked == 0 && c.probing > 0)
  }

  /** How many lapsed sends can be turned into waiting ones: those left over when the
      deciding sends and the other lapsed ones have filled the limit before them. */
  function Turned(c: Census): int {
    var excess := c.created + c.deciding + c.lapsed - c.limit;
    if excess <= 0 then 0 else if excess < c.lapsed then excess else c.lapsed
  }

  /** `created` once every doomed slot is gone and every deciding send has created. */
  function Sure(c: Census): int {
    c.created - c.doomed + c.deciding
  }

  /** Enough creators, without turning any lapsed send. */
  predicate Direct(c: Census, bound: int) {
    || Sure(c) > bound
    || (Sure(c) + c.looking > bound && Sure(c) + c.looking + Takers(c) - c.idle > bound)
  }

  /** Some run takes `created` past the bound and leaves it there. */
  predicate CanExceed(c: Census, bound: int) {
    && bound < c.limit
    && (|| Sure(c) > bound
        || (Sure(c) + c.looking > bound && Sure(c) + c.looking + Takers(c) + Turned(c) - c.idle > bound))
  }

  // ---------------------------------------------------- how a step moves the census

  /** The census after a call went from l to l' and the sender's fields became core. */
  function Shift(c: Census, l: Local, l': Local, over: bool, core: Core): Census {
    Census(core.created, core.maxConns, |core.pool|,
           c.doomed - One(Doomed(l, over)) + One(Doomed(l', over)),
           c.deciding - One(Deciding(l, over)) + One(Deciding(l', over)),
           c.looking - One(Looking(l, over)) + One(Looking(l', over)),
           c.taking - One(Taking(l, over)) + One(Taking(l', over)),
           c.lapsed - One(Lapsed(l, over)) + One(Lapsed(l', over)),
           c.probing - One(Probing(l, over)) + One(Probing(l', over)),
           c.peeked - One(Peeked(l, over)) + One(Peeked(l', over)))
  }

  /** The census after the context of call l ended. */
  function Lapse(c: Census, l: Local, over: bool): Census {
    Census(c.created, c.limit, c.idle,
           c.doomed - One(Doomed(l, over)) + One(Doomed(l, true)),
           c.deciding - One(Deciding(l, over)) + One(Deciding(l, true)),
           c.looking - One(Looking(l, over)) + One(Looking(l, true)),
           c.taking - One(Taking(l, over)) + One(Taking(l, true)),
           c.lapsed - One(Lapsed(l, over)) + One(Lapsed(l, true)),
           c.probing - One(Probing(l, over)) + One(Probing(l, true)),
           c.peeked - One(Peeked(l, over)) + One(Peeked(l, true)))
  }

  lemma CensusAfter(s: State, u: Tid, m: Move)
    requires u in s.threads && m.To? && m.g.cancelled == s.g.cancelled
    ensures CensusOf(After(s, u, m)) == Shift(CensusOf(s), s.threads[u], m.l, u in s.g.cancelled, m.g.core)
  {
    ThoseUpdate(s.threads, s.g.cancelled, u, m.l, Doomed);
    ThoseUpdate(s.threads, s.g.cancelled, u, m.l, Deciding);
    ThoseUpdate(s.threads, s.g.cancelled, u, m.l, Looking);
    ThoseUpdate(s.threads, s.g.cancelled, u, m.l, Taking);
    ThoseUpdate(s.threads, s.g.cancelled, u, m.l, Lapsed);
    ThoseUpdate(s.threads, s.g.cancelled, u, m.l, Probing);
    ThoseUpdate(s.threads, s.g.cancelled, u, m.l, Peeked);
  }

  /** The census agrees with the fields and counts the call l. */
  predicate Agrees(c: Census, core: Core, l: Local, over: bool) {
    && c.created == core.created <= core.maxConns == c.limit && c.idle == |core.pool|
    && One(Doomed(l, over)) <= c.doomed && One(Deciding(l, over)) <= c.deciding && One(Looking(l, over)) <= c.looking
    && One(Taking(l, over)) <= c.taking && One(Lapsed(l, over)) <= c.lapsed
    && One(Probing(l, over)) <= c.probing && One(Peeked(l, over)) <= c.peeked <= 1
    && (HoldsPoolMu(l) && !Peeked(l, over) ==> c.peeked == 0)
  }

  lemma CountsIt(s: State, u: Tid, p: (Local, bool) -> bool)
    requires u in s.threads
    ensures One(p(s.threads[u], u in s.g.cancelled)) <= Count(s, p)
  {
    assert p(s.threads[u], u in s.g.cancelled) ==> u in Those(s.threads, s.g.cancelled, p);
  }

  /** poolMu admits one probe at a time. */
  lemma OnePeek(s: State)
    requires Inv(s)
    ensures Count(s, Peeked) <= 1
    ensures forall u :: u in s.threads && HoldsPoolMu(s.threads[u]) && !HeldByProbe(s.threads[u]) ==> Count(s, Peeked) == 0
  {
    var peeked := Those(s.threads, s.g.cancelled, Peeked);
    forall u, v | u in s.threads && HoldsPoolMu(s.threads[u]) && v in peeked
      ensures v == u
    {
      assert Fits(s.g, u, s.threads[u]) && Fits(s.g, v, s.threads[v]);
    }
    if u :| u in peeked {
      assert peeked == {u};
    }
  }

  lemma CensusAgrees(s: State, u: Tid)
    requires Inv(s) && u in s.threads
    ensures Agrees(CensusOf(s), s.g.core, s.threads[u], u in s.g.cancelled)
  {
    CountsIt(s, u, Doomed);
    CountsIt(s, u, Deciding);
    CountsIt(s, u, Looking);
    CountsIt(s, u, Taking);
    CountsIt(s, u, Lapsed);
    CountsIt(s, u, Probing);
    CountsIt(s, u, Peeked);
    OnePeek(s);
  }

  // ------------------------------------------------------ no run once it is hopeless

  /** Of the roles in the census the call plays at most that of a doomed slot. */
  predicate Roleless(l: Local) {
    match l
    case Send(pc, _) => !Early(l) && !pc.Waiting?
    case Probe(pp) => !pp.WantingMu? && !pp.Peeking? && !pp.Inspecting? && !pp.Restoring?
    case Close(_) => true
  }

  /** A move out of the way of the census: no slot is saved and none is gained. */
  predicate Background(l: Local, over: bool, core: Core, m: Move) {
    m.To? ==>
      && Roleless(m.l) && m.g.core.closed == core.closed && m.g.core.maxConns == core.maxConns
      && m.g.core.created <= core.created && |m.g.core.pool| >= |core.pool|
      && m.g.core.created - One(Doomed(m.l, over)) <= core.created - One(Doomed(l, over))
  }

  lemma HoldersInBackground(g: Shared, t: Tid, pc: SendPc, h: History, ch: Choice)
    requires Held(Send(pc, h)).Some?
    ensures Background(Send(pc, h), t in g.cancelled, g.core, DeliverStep(g, t, pc, h, ch))
  {
    match pc
    case Acquired(_) =>
    case Putting(_) =>
    case MarkingLost(_, _) =>
    case RedialCheck(_) =>
    case Redialling(_) =>
    case Discarding(_, _, _) =>
    case MarkingReconnected(_) =>
    case Reputting(_) =>
    case MarkingSent(_) =>
    case Releasing(_, _) =>
  }

  lemma OthersInBackground(g: Shared, t: Tid, pc: SendPc, h: History, ch: Choice)
    requires g.core.closed && Held(Send(pc, h)).None? && Roleless(Send(pc, h))
    ensures Background(Send(pc, h), t in g.cancelled, g.core, SendStep(g, t, pc, h, ch))
  {
    match pc
    case Admitting =>
    case DialCheck =>
    case Dialling =>
    case Unreserving(_) =>
    case CheckingDialCtx(_) =>
    case Uncounting(_, _) =>
    case MarkingFailed(_) =>
    case Leaving(_) =>
    case Returned(_) =>
  }

  ghost predicate Hopeless(c: Census, g: Shared, t: Tid, l: Local, bound: int) {
    g.core.closed && Agrees(c, g.core, l, t in g.cancelled) && !CanExceed(c, bound)
  }

  /** The move of call t keeps the bound out of reach. */
  ghost predicate StaysHopeless(c: Census, g: Shared, t: Tid, l: Local, m: Move, bound: int) {
    m.To? ==> m.g.core.closed && !CanExceed(Shift(c, l, m.l, t in g.cancelled, m.g.core), bound)
  }

  lemma BackgroundIsHopeless(c: Census, g: Shared, t: Tid, l: Local, m: Move, bound: int)
    requires Hopeless(c, g, t, l, bound) && Roleless(l) && Background(l, t in g.cancelled, g.core, m)
    ensures StaysHopeless(c, g, t, l, m, bound)
  {
  }

  lemma HopelessLook(c: Census, g: Shared, t: Tid, pc: SendPc, h: History, ch: Choice, bound: int)
    requires (pc.CheckingCtx? || pc.TryingPool?) && Hopeless(c, g, t, Send(pc, h), bound)
    ensures StaysHopeless(c, g, t, Send(pc, h), AcquireStep(g, t, pc, h, ch), bound)
  {
    if pc.CheckingCtx? {
    } else if t in g.cancelled {
    } else {
    }
  }

  lemma HopelessDecision(c: Census, g: Shared, t: Tid, pc: SendPc, h: History, ch: Choice, bound: int)
    requires pc.Reserving? && Hopeless(c, g, t, Send(pc, h), bound)
    ensures StaysHopeless(c, g, t, Send(pc, h), AcquireStep(g, t, pc, h, ch), bound)
  {
    if t in g.cancelled {
      if CanReserve(g.core) {
      } else {
      }
    } else {
      if CanReserve(g.core) {
      } else {
      }
    }
  }

  lemma HopelessWait(c: Census, g: Shared, t: Tid, pc: SendPc, h: History, ch: Choice, bound: int)
    requires pc.Waiting? && Hopeless(c, g, t, Send(pc, h), bound)
    ensures StaysHopeless(c, g, t, Send(pc, h), AcquireStep(g, t, pc, h, ch), bound)
  {
  }

  lemma HopelessSend(c: Census, g: Shared, t: Tid, pc: SendPc, h: History, ch: Choice, bound: int)
    requires Hopeless(c, g, t, Send(pc, h), bound)
    ensures StaysHopeless(c, g, t, Send(pc, h), SendStep(g, t, pc, h, ch), bound)
  {
    if Held(Send(pc, h)).Some? {
      HoldersInBackground(g, t, pc, h, ch);
      BackgroundIsHopeless(c, g, t, Send(pc, h), DeliverStep(g, t, pc, h, ch), bound);
    } else if Roleless(Send(pc, h)) {
      OthersInBackground(g, t, pc, h, ch);
      BackgroundIsHopeless(c, g, t, Send(pc, h), SendStep(g, t, pc, h, ch), bound);
    } else if pc.Waiting? {
      HopelessWait(c, g, t, pc, h, ch, bound);
    } else if pc.Reserving? {
      HopelessDecision(c, g, t, pc, h, ch, bound);
    } else {
      HopelessLook(c, g, t, pc, h, ch, bound);
    }
  }

  lemma HopelessPeek(c: Census, g: Shared, t: Tid, pp: ProbePc, bound: int)
    requires (pp.Peeking? || pp.Restoring?) && Hopeless(c, g, t, Probe(pp), bound)
    ensures StaysHopeless(c, g, t, Probe(pp), ProbeStep(g, t, pp), bound)
  {
  }

  lemma HopelessProbe(c: Census, g: Shared, t: Tid, pp: ProbePc, bound: int)
    requires Hopeless(c, g, t, Probe(pp), bound)
    ensures StaysHopeless(c, g, t, Probe(pp), ProbeStep(g, t, pp), bound)
  {
    match pp
    case Snapping =>
    case WantingMu(_) =>
    case Peeking(_) => HopelessPeek(c, g, t, pp, bound);
    case Inspecting(_, _) =>
    case Restoring(_, _, _) => HopelessPeek(c, g, t, pp, bound);
    case Unlocking(_, _) =>
    case Answered(_, _) =>
  }

  /** `close` changes no count, and the pool only once no send looks at it any more. */
  predicate ClosesOnly(core: Core, cp: ClosePc, m: Move) {
    m.To? ==>
      && m.l.Close? && m.g.core.maxConns == core.maxConns && m.g.core.created == core.created && m.g.core.closed
      && (!cp.Draining? ==> m.g.core.pool == core.pool)
  }

  lemma CloseStepCloses(g: Shared, t: Tid, cp: ClosePc)
    requires g.core.closed
    ensures ClosesOnly(g.core, cp, CloseStep(g, t, cp))
  {
  }

  lemma HopelessClose(c: Census, g: Shared, t: Tid, cp: ClosePc, m: Move, bound: int)
    requires Hopeless(c, g, t, Close(cp), bound) && ClosesOnly(g.core, cp, m) && (cp.Draining? ==> c.looking == 0)
    ensures StaysHopeless(c, g, t, Close(cp), m, bound)
  {
  }

  lemma HopelessMove(c: Census, g: Shared, t: Tid, l: Local, ch: Choice, bound: int)
    requires Hopeless(c, g, t, l, bound) && (l.Close? && l.cp.Draining? ==> c.looking == 0)
    ensures StaysHopeless(c, g, t, l, LocalStep(g, t, l, ch), bound)
  {
    match l
    case Send(pc, h) => HopelessSend(c, g, t, pc, h, ch, bound);
    case Probe(pp) => HopelessProbe(c, g, t, pp, bound);
    case Close(cp) =>
      CloseStepCloses(g, t, cp);
      HopelessClose(c, g, t, cp, CloseStep(g, t, cp), bound);
  }

  /** The end of a context takes the bound no nearer either. */
  lemma HopelessLapse(c: Census, g: Shared, t: Tid, l: Local, bound: int)
    requires Hopeless(c, g, t, l, bound)
    ensures !CanExceed(Lapse(c, l, t in g.cancelled), bound)
  {
    if l.Send? && Early(l) {
    } else {
    }
  }
}
