/** What every step of the sender protocol keeps. A step of one thread is judged
    locally (`Balanced`, `Handled`), and every fact about another thread survives it (`Kept`). */
module SenderInvariants {
  import opened Errors
  import opened ConnectionStates
  import opened SenderPool
  import opened SenderProtocol
  import opened Numbers
  import opened Counting
  import opened Runs

  // ------------------------------------------------------------- invariants

  /** Every unit of `created` is accounted for, within the limit. */
  ghost predicate Counted(s: State) {
    && s.g.core.created == |s.g.core.pool| + |Where(s.threads, HasSlot)| + s.g.drained
    && s.g.core.created <= s.g.core.maxConns
  }

  ghost predicate WaitGroup(s: State) {
    s.g.core.wg == |Where(s.threads, InFlight)|
  }

  /** The pool holds each idle connection once, and nothing else. */
  ghost predicate PoolOwned(g: Shared) {
    && |g.conn| == |g.owner|
    && (forall i :: 0 <= i < |g.core.pool| ==> g.core.pool[i] < |g.owner| && g.owner[g.core.pool[i]] == Idle)
    && (forall i, j :: 0 <= i < j < |g.core.pool| ==> g.core.pool[i] != g.core.pool[j])
    && (forall c :: 0 <= c < |g.owner| && g.owner[c] == Idle ==> c in g.core.pool)
    && (forall i :: 0 <= i < |g.core.pool| ==> g.conn[g.core.pool[i]] == Connected)
    && (forall c :: 0 <= c < |g.owner| && g.owner[c] == Gone ==> g.conn[c] == Failed)
  }

  /** Thread `t` holds exactly the connection it says it holds. */
  ghost predicate Holds(g: Shared, t: Tid, l: Local) {
    && (Held(l).Some? ==> Held(l).value < |g.owner| && g.owner[Held(l).value] == HeldBy(t))
    && (forall c :: 0 <= c < |g.owner| && g.owner[c] == HeldBy(t) ==> Held(l) == Some(c))
  }

  /** Outside Reconnect and the discard path a held connection is up. */
  predicate MustBeUp(l: Local) {
    Held(l).Some? && !(l.Send? && (l.pc.RedialCheck? || l.pc.Redialling? || l.pc.Discarding?))
  }

  ghost predicate Up(g: Shared, l: Local) {
    MustBeUp(l) ==> Held(l).value < |g.conn| && g.conn[Held(l).value] == Connected
  }

  ghost predicate StateTracked(core: Core) {
    && (core.lastErr.Some? <==> core.state == Reconnecting || core.state == Failed)
    && (core.state == Stopped ==> core.closed)
  }

  ghost predicate Tracked(g: Shared) {
    && StateTracked(g.core)
    && (g.core.closed <==> g.closer.Some?)
    && (g.closer.None? ==> g.drained == 0)
    && 1 <= g.core.maxConns
  }

  // ------------------------------------------------------ one thread's facts

  function Taken(puts: seq<Put>): nat {
    if puts == [] then 0 else Taken(puts[..|puts| - 1]) + One(!puts[|puts| - 1].Refused?)
  }

  ghost predicate ConnectionLost(p: Put) {
    !p.Acked? && IsConnectionError(p.err)
  }

  /** A put that may be followed by another one. */
  ghost predicate OnePutLost(h: History) {
    |h.puts| == 1 && ConnectionLost(h.puts[0])
  }

  ghost predicate PutsSoFar(h: History) {
    if h.reconnected then |h.puts| == 2 && ConnectionLost(h.puts[0]) else |h.puts| == 1
  }

  ghost predicate Succeeded(h: History) {
    PutsSoFar(h) && h.puts[|h.puts| - 1].Acked?
  }

  ghost predicate Failing(h: History) {
    PutsSoFar(h) && !h.puts[|h.puts| - 1].Acked?
  }

  predicate Holding(h: History) {
    h.acquired == 1 && h.pooled == 0 && h.discarded == 0
  }

  const UP := Mark(Connected, None)

  function LastPut(h: History): Put
    requires h.puts != []
  {
    h.puts[|h.puts| - 1]
  }

  /** What a send with a connection has recorded before it is known how its last put, or
      its Reconnect, ends for it. */
  ghost function MarksBefore(h: History): seq<Mark> {
    if h.puts == [] || !ConnectionLost(h.puts[0]) then [UP]
    else [UP, Mark(Reconnecting, Some(h.puts[0].err))] + if h.reconnected then [UP] else []
  }

  /** And what in the end: Failed for a Reconnect that failed or a second put that lost the
      connection, Connected for an acknowledged put, nothing more for any other error. */
  ghost function MarksInAll(h: History): seq<Mark> {
    MarksBefore(h) +
    if h.puts == [] then []
    else if h.redialErr.Some? then [Mark(Failed, h.redialErr)]
    else if LastPut(h).Acked? then [UP]
    else if h.reconnected && ConnectionLost(LastPut(h)) then [Mark(Failed, Some(LastPut(h).err))]
    else []
  }

  /** The error a send with a connection has to return. */
  ghost function ErrorOf(h: History): Option<Error> {
    if h.redialErr.Some? then h.redialErr
    else if h.puts == [] || LastPut(h).Acked? then None
    else Some(LastPut(h).err)
  }

  /** Reconnect failed exactly when the first put lost the connection and there is no
      second one. */
  ghost predicate RedialFits(h: History) {
    h.dialErr.None? && (h.redialErr.Some? <==> PutsSoFar(h) && !h.reconnected && ConnectionLost(h.puts[0]))
  }

  /** What a send can have done when it returns `r`. */
  ghost predicate Outcome(h: History, r: Option<Error>) {
    || (r.Some? && h == NOTHING_YET)
    || (r.Some? && h == NOTHING_YET.(dialErr := r))
    || (r.Some? && h == NOTHING_YET.(dialErr := r, marks := [Mark(Failed, r)]))
    || (&& PutsSoFar(h) && RedialFits(h) && h.acquired == 1 && h.pooled + h.discarded == 1
        && r == ErrorOf(h) && h.marks == MarksInAll(h)
        && (h.discarded == 1 <==> h.redialErr.Some? || (h.reconnected && !LastPut(h).Acked?)))
  }

  /** A send that gives its connection up, before it is counted out. */
  ghost predicate GivingUp(h: History, e: Error, mark: bool) {
    && Failing(h) && RedialFits(h) && (h.redialErr.Some? || h.reconnected)
    && ErrorOf(h) == Some(e) && h.marks == MarksBefore(h)
    && (mark <==> h.redialErr.Some? || ConnectionLost(LastPut(h)))
  }

  /** The history that belongs to each place in the code. */
  ghost predicate HistoryFits(pc: SendPc, h: History) {
    match pc
    case Unreserving(e) => h == NOTHING_YET.(dialErr := Some(e))
    case CheckingDialCtx(e) => h == NOTHING_YET.(dialErr := Some(e))
    case Acquired(_) => h == NOTHING_YET.(acquired := 1)
    case Putting(_) => h == NOTHING_YET.(acquired := 1, marks := [UP])
    case MarkingLost(_, e) =>
      OnePutLost(h) && h == NOTHING_YET.(acquired := 1, puts := h.puts, marks := [UP]) && h.puts[0].err == e
    case RedialCheck(_) => OnePutLost(h) && h == NOTHING_YET.(acquired := 1, puts := h.puts, marks := MarksBefore(h))
    case Redialling(_) => OnePutLost(h) && h == NOTHING_YET.(acquired := 1, puts := h.puts, marks := MarksBefore(h))
    case MarkingReconnected(_) =>
      && OnePutLost(h)
      && h == NOTHING_YET.(acquired := 1, puts := h.puts, reconnected := true,
                           marks := [UP, Mark(Reconnecting, Some(h.puts[0].err))])
    case Reputting(_) =>
      OnePutLost(h) && h == NOTHING_YET.(acquired := 1, puts := h.puts, reconnected := true, marks := MarksBefore(h))
    case MarkingSent(_) => Holding(h) && Succeeded(h) && RedialFits(h) && h.redialErr.None? && h.marks == MarksBefore(h)
    case Releasing(_, r) =>
      && Holding(h) && PutsSoFar(h) && RedialFits(h) && h.redialErr.None? && (h.reconnected ==> LastPut(h).Acked?)
      && r == ErrorOf(h) && h.marks == MarksInAll(h)
    case Discarding(_, e, mark) => Holding(h) && GivingUp(h, e, mark)
    case Uncounting(e, mark) => h.acquired == 1 && h.pooled == 0 && h.discarded == 1 && GivingUp(h, e, mark)
    case MarkingFailed(e) =>
      || h == NOTHING_YET.(dialErr := Some(e))
      || (h.acquired == 1 && h.pooled == 0 && h.discarded == 1 && GivingUp(h, e, true))
    case Leaving(r) => Outcome(h, r)
    case Returned(r) => Outcome(h, r)
    case _ => h == NOTHING_YET
  }

  /** A send that leaves without having tried anything was refused or its context ended;
      and only an ended context keeps a failed dial off the record. */
  ghost predicate LeftEarly(g: Shared, t: Tid, pc: SendPc, h: History) {
    pc.Leaving? || pc.Returned? ==>
      && (h == NOTHING_YET && pc.result != Some(CLIENT_CLOSED) ==> pc.result == Some(Plain(Context)) && t in g.cancelled)
      && (h == NOTHING_YET && pc.result == Some(CLIENT_CLOSED) ==> g.core.closed)
      && (h.dialErr.Some? && h.marks == [] ==> t in g.cancelled)
  }

  /** A waiting send found the limit reached, and it still is unless a connection was dropped since. */
  ghost predicate WaitedWell(g: Shared, pc: SendPc) {
    pc.Waiting? ==> pc.since <= g.drops && (pc.since == g.drops ==> g.core.created == g.core.maxConns)
  }

  /** The answer as a function of the snapshot alone. */
  function SimpleAnswer(s: Snapshot): Answer {
    if s.closed then Dead(SenderClosed)
    else match s.state
      case Reconnecting => Dead(InState(Reconnecting))
      case Failed => Dead(if s.lastErr.Some? then InStateAfter(Failed, s.lastErr.value) else InState(Failed))
      case _ => if s.created == 0 then NoEntry else Alive
  }

  predicate Consistent(s: Snapshot) {
    && (s.lastErr.Some? <==> s.state == Reconnecting || s.state == Failed)
    && (s.state == Stopped ==> s.closed)
  }

  /** The snapshot lets the probe go on to the pool. */
  predicate Undecided(s: Snapshot) {
    Consistent(s) && Immediate(s).None?
  }

  ghost predicate ProbeFits(pp: ProbePc) {
    match pp
    case Snapping => true
    case WantingMu(s) => Undecided(s)
    case Peeking(s) => Undecided(s)
    case Inspecting(s, _) => Undecided(s)
    case Restoring(s, _, st) => Undecided(s) && st == Connected
    case Unlocking(s, a) => Undecided(s) && a == Alive
    case Answered(s, a) => Consistent(s) && a == SimpleAnswer(s)
  }

  ghost predicate CloseFits(g: Shared, t: Tid, cp: ClosePc) {
    match cp
    case Beginning => g.closer != Some(t)
    case AlreadyClosed => g.core.closed && g.closer != Some(t)
    case AwaitingSends(b) => g.closer == Some(t) && 0 <= b && g.drained == 0
    case WantingPoolMu(b) => g.closer == Some(t) && 0 <= b && g.drained == 0 && g.core.wg == 0
    case Draining(b, i, n) =>
      && g.closer == Some(t) && i <= b && g.core.wg == 0
      && g.drained == n == Min(i, g.core.created)
    case Finished(b, n) =>
      && g.closer == Some(t) && 0 <= b && g.core.wg == 0
      && g.drained == n == Min(b, g.core.created)
  }

  /** What a thread knows apart from connections. */
  ghost predicate OwnFacts(g: Shared, t: Tid, l: Local) {
    && (HoldsPoolMu(l) <==> g.core.poolMu == Some(t))
    && match l
       case Send(pc, h) =>
         && HistoryFits(pc, h) && LeftEarly(g, t, pc, h) && WaitedWell(g, pc)
         && Copies(g, t) == Taken(h.puts) && g.closer != Some(t)
       case Probe(pp) => ProbeFits(pp) && g.closer != Some(t)
       case Close(cp) => CloseFits(g, t, cp)
  }

  /** Everything one thread may rely on. */
  ghost predicate Fits(g: Shared, t: Tid, l: Local) {
    && Holds(g, t, l)
    && Up(g, l)
    && OwnFacts(g, t, l)
  }

  /** A thread that was never called owns nothing and has put nothing. */
  ghost predicate Absent(g: Shared, t: Tid) {
    && g.core.poolMu != Some(t)
    && g.closer != Some(t)
    && Copies(g, t) == 0
    && (forall c :: 0 <= c < |g.owner| ==> g.owner[c] != HeldBy(t))
  }

  ghost predicate GlobalFits(g: Shared) {
    && PoolOwned(g)
    && Tracked(g)
  }

  ghost predicate Inv(s: State) {
    && Counted(s)
    && WaitGroup(s)
    && GlobalFits(s.g)
    && (forall t :: t in s.threads ==> Fits(s.g, t, s.threads[t]))
    && (forall t :: t !in s.threads ==> Absent(s.g, t))
  }

  // --------------------------------------------------- what a step guarantees

  function Slot(l: Local): nat {
    One(HasSlot(l))
  }

  /** Units of `created` not explained by the pool and the drain. */
  function Outstanding(g: Shared): int {
    g.core.created - |g.core.pool| - g.drained
  }

  /** The numbers the stepping thread may count on. */
  ghost predicate Ready(g: Shared, t: Tid, l: Local) {
    && Tracked(g)
    && OwnFacts(g, t, l)
    && Up(g, l)
    && (InFlight(l) ==> g.core.wg >= 1)
    && g.core.wg >= 0
    && 0 <= g.core.created <= g.core.maxConns
    && (l.Close? && l.cp.Draining? ==> Outstanding(g) == 0)
  }

  /** What a step of `t` leaves alone, apart from connections. */
  ghost predicate Kept(g: Shared, g': Shared, t: Tid) {
    && g'.core.maxConns == g.core.maxConns
    && g'.cancelled == g.cancelled
    && g'.drops >= g.drops
    && (g'.core.created < g.core.created ==> g'.drops > g.drops)
    && g'.core.created <= g.core.maxConns
    && (g.core.closed ==> g'.core.closed)
    && (g.closer.Some? ==> g'.closer == g.closer)
    && (g'.closer == g.closer || g'.closer == Some(t))
    && (g.closer != Some(t) ==> g'.drained == g.drained)
    && (g.core.closed && g.core.wg == 0 ==> g'.core.wg == 0 && g'.core.created == g.core.created)
    && (forall u :: u != t ==> Copies(g', u) == Copies(g, u))
    && (g'.core.poolMu == g.core.poolMu || (g.core.poolMu.None? && g'.core.poolMu == Some(t))
        || (g.core.poolMu == Some(t) && g'.core.poolMu.None?))
  }

  /** The books of thread `t` balance after its step. */
  ghost predicate Balanced(g: Shared, t: Tid, l: Local, g': Shared, l': Local) {
    && Outstanding(g') - Slot(l') == Outstanding(g) - Slot(l)
    && g'.core.wg - One(InFlight(l')) == g.core.wg - One(InFlight(l))
    && Kept(g, g', t)
    && Tracked(g')
    && OwnFacts(g', t, l')
  }

  lemma LookBalanced(g: Shared, t: Tid, pc: SendPc, h: History, ch: Choice)
    requires pc.CheckingCtx? || pc.TryingPool?
    requires Ready(g, t, Send(pc, h)) && AcquireStep(g, t, pc, h, ch).To?
    ensures var To(g', l') := AcquireStep(g, t, pc, h, ch); Balanced(g, t, Send(pc, h), g', l')
  {
    match pc
    case CheckingCtx =>
    case TryingPool =>
  }

  lemma WaitBalanced(g: Shared, t: Tid, pc: SendPc, h: History, ch: Choice)
    requires pc.Waiting?
    requires Ready(g, t, Send(pc, h)) && AcquireStep(g, t, pc, h, ch).To?
    ensures var To(g', l') := AcquireStep(g, t, pc, h, ch); Balanced(g, t, Send(pc, h), g', l')
  {
  }

  lemma ReserveBalanced(g: Shared, t: Tid, pc: SendPc, h: History, ch: Choice)
    requires pc.Reserving? || pc.DialCheck?
    requires Ready(g, t, Send(pc, h)) && AcquireStep(g, t, pc, h, ch).To?
    ensures var To(g', l') := AcquireStep(g, t, pc, h, ch); Balanced(g, t, Send(pc, h), g', l')
  {
    match pc
    case Reserving =>
    case DialCheck =>
  }

  lemma DialBalanced(g: Shared, t: Tid, pc: SendPc, h: History, ch: Choice)
    requires pc.Dialling?
    requires Ready(g, t, Send(pc, h)) && AcquireStep(g, t, pc, h, ch).To?
    ensures var To(g', l') := AcquireStep(g, t, pc, h, ch); Balanced(g, t, Send(pc, h), g', l')
  {
  }

  lemma UnreserveBalanced(g: Shared, t: Tid, pc: SendPc, h: History, ch: Choice)
    requires pc.Unreserving? || pc.CheckingDialCtx?
    requires Ready(g, t, Send(pc, h)) && AcquireStep(g, t, pc, h, ch).To?
    ensures var To(g', l') := AcquireStep(g, t, pc, h, ch); Balanced(g, t, Send(pc, h), g', l')
  {
    match pc
    case Unreserving(_) =>
    case CheckingDialCtx(_) =>
  }

  lemma TakenWithOneMore(puts: seq<Put>, p: Put)
    ensures Taken(puts + [p]) == Taken(puts) + One(!p.Refused?)
  {
    assert (puts + [p])[..|puts|] == puts;
  }

  /** Where a put leads. */
  function AfterPut(pc: SendPc, p: Put): SendPc
    requires pc.Putting? || pc.Reputting?
  {
    if p.Acked? then MarkingSent(pc.conn) else AfterPutError(pc.conn, p.err, pc.Reputting?)
  }

  /** The history fits there. */
  lemma PutFits(pc: SendPc, h: History, p: Put)
    requires (pc.Putting? || pc.Reputting?) && HistoryFits(pc, h)
    requires p.AckLost? ==> IsConnectionError(p.err)
    ensures HistoryFits(AfterPut(pc, p), AddPut(h, p)) && CheckedOut(Send(AfterPut(pc, p), AddPut(h, p)))
  {
    var h' := AddPut(h, p);
    assert h'.puts[|h'.puts| - 1] == p;
    assert pc.Reputting? ==> h'.puts[0] == h.puts[0];
  }

  predicate PutOutcome(ch: Choice) {
    ch.PutAck? || ch.PutErr? || (ch.PutLost? && IsConnectionError(ch.err))
  }

  function PutOf(ch: Choice): Put
    requires PutOutcome(ch)
  {
    match ch
    case PutAck => Acked
    case PutErr(e) => Refused(e)
    case PutLost(e) => AckLost(e)
  }

  /** A put touches the queue and the thread's history, nothing else. */
  lemma PutMoves(g: Shared, t: Tid, pc: SendPc, h: History, ch: Choice)
    requires (pc.Putting? || pc.Reputting?) && DeliverStep(g, t, pc, h, ch).To?
    ensures PutOutcome(ch)
    ensures DeliverStep(g, t, pc, h, ch) ==
      To(if PutOf(ch).Refused? then g else Accepts(g, t),
         Send(AfterPut(pc, PutOf(ch)), AddPut(h, PutOf(ch))))
  {
  }

  /** A step that keeps the connection and at most adds an accepted copy. */
  lemma HoldingOnBalanced(g: Shared, t: Tid, pc: SendPc, h: History, g': Shared, pc': SendPc, h': History)
    requires Ready(g, t, Send(pc, h)) && CheckedOut(Send(pc, h)) && CheckedOut(Send(pc', h'))
    requires g' == g || g' == Accepts(g, t)
    requires HistoryFits(pc', h') && Copies(g', t) == Taken(h'.puts)
    ensures Balanced(g, t, Send(pc, h), g', Send(pc', h'))
  {
    assert InFlight(Send(pc, h)) && InFlight(Send(pc', h'));
    assert !pc'.Waiting?;
  }

  lemma PutCounts(g: Shared, t: Tid, h: History, p: Put)
    requires Copies(g, t) == Taken(h.puts)
    ensures Copies(if p.Refused? then g else Accepts(g, t), t) == Taken(AddPut(h, p).puts)
  {
    TakenWithOneMore(h.puts, p);
  }

  lemma PutBalanced(g: Shared, t: Tid, pc: SendPc, h: History, ch: Choice)
    requires pc.Putting? || pc.Reputting?
    requires Ready(g, t, Send(pc, h)) && DeliverStep(g, t, pc, h, ch).To?
    ensures var To(g', l') := DeliverStep(g, t, pc, h, ch); Balanced(g, t, Send(pc, h), g', l')
  {
    PutMoves(g, t, pc, h, ch);
    var p := PutOf(ch);
    var g', pc', h' := if p.Refused? then g else Accepts(g, t), AfterPut(pc, p), AddPut(h, p);
    assert HistoryFits(pc', h') && CheckedOut(Send(pc', h')) by {
      PutFits(pc, h, p);
    }
    assert Copies(g', t) == Taken(h'.puts) by {
      PutCounts(g, t, h, p);
    }
    HoldingOnBalanced(g, t, pc, h, g', pc', h');
  }

  lemma MarkBalanced(g: Shared, t: Tid, pc: SendPc, h: History, ch: Choice)
    requires pc.Acquired? || pc.MarkingSent?
    requires Ready(g, t, Send(pc, h)) && DeliverStep(g, t, pc, h, ch).To?
    ensures var To(g', l') := DeliverStep(g, t, pc, h, ch); Balanced(g, t, Send(pc, h), g', l')
  {
    match pc
    case Acquired(_) =>
    case MarkingSent(_) =>
  }

  lemma LossBalanced(g: Shared, t: Tid, pc: SendPc, h: History, ch: Choice)
    requires pc.MarkingLost? || pc.MarkingReconnected?
    requires Ready(g, t, Send(pc, h)) && DeliverStep(g, t, pc, h, ch).To?
    ensures var To(g', l') := DeliverStep(g, t, pc, h, ch); Balanced(g, t, Send(pc, h), g', l')
  {
    match pc
    case MarkingLost(_, _) =>
    case MarkingReconnected(_) =>
  }

  lemma ReleaseBalanced(g: Shared, t: Tid, pc: SendPc, h: History, ch: Choice)
    requires pc.Releasing?
    requires Ready(g, t, Send(pc, h)) && DeliverStep(g, t, pc, h, ch).To?
    ensures var To(g', l') := DeliverStep(g, t, pc, h, ch); Balanced(g, t, Send(pc, h), g', l')
  {
    var h' := h.(pooled := h.pooled + 1);
    assert Outcome(h', pc.result) && h' != NOTHING_YET && h'.dialErr.None?;
  }

  lemma DiscardBalanced(g: Shared, t: Tid, pc: SendPc, h: History, ch: Choice)
    requires pc.Discarding?
    requires Ready(g, t, Send(pc, h)) && DeliverStep(g, t, pc, h, ch).To?
    ensures var To(g', l') := DeliverStep(g, t, pc, h, ch); Balanced(g, t, Send(pc, h), g', l')
  {
  }

  lemma RedialBalanced(g: Shared, t: Tid, pc: SendPc, h: History, ch: Choice)
    requires pc.RedialCheck? || pc.Redialling?
    requires Ready(g, t, Send(pc, h)) && DeliverStep(g, t, pc, h, ch).To?
    ensures var To(g', l') := DeliverStep(g, t, pc, h, ch); Balanced(g, t, Send(pc, h), g', l')
  {
  }

  lemma GateBalanced(g: Shared, t: Tid, pc: SendPc, h: History)
    requires pc.Admitting? || pc.Leaving?
    requires Ready(g, t, Send(pc, h)) && FrameStep(g, t, pc, h).To?
    ensures var To(g', l') := FrameStep(g, t, pc, h); Balanced(g, t, Send(pc, h), g', l')
  {
    match pc
    case Admitting =>
    case Leaving(_) =>
  }

  lemma FailureBalanced(g: Shared, t: Tid, pc: SendPc, h: History)
    requires pc.Uncounting? || pc.MarkingFailed?
    requires Ready(g, t, Send(pc, h)) && FrameStep(g, t, pc, h).To?
    ensures var To(g', l') := FrameStep(g, t, pc, h); Balanced(g, t, Send(pc, h), g', l')
  {
    match pc
    case Uncounting(_, _) =>
    case MarkingFailed(_) =>
  }

  lemma PeekBalanced(g: Shared, t: Tid, pp: ProbePc)
    requires pp.Peeking? || pp.Inspecting? || pp.Restoring?
    requires Ready(g, t, Probe(pp)) && ProbeStep(g, t, pp).To?
    ensures var To(g', l') := ProbeStep(g, t, pp); Balanced(g, t, Probe(pp), g', l')
  {
    match pp
    case Peeking(_) =>
    case Inspecting(_, _) =>
    case Restoring(_, _, _) =>
  }

  lemma LockBalanced(g: Shared, t: Tid, pp: ProbePc)
    requires pp.Snapping? || pp.WantingMu? || pp.Unlocking?
    requires Ready(g, t, Probe(pp)) && ProbeStep(g, t, pp).To?
    ensures var To(g', l') := ProbeStep(g, t, pp); Balanced(g, t, Probe(pp), g', l')
  {
    match pp
    case Snapping =>
    case WantingMu(_) =>
    case Unlocking(_, _) =>
  }

  lemma CloseBalanced(g: Shared, t: Tid, cp: ClosePc)
    requires Ready(g, t, Close(cp)) && CloseStep(g, t, cp).To?
    ensures var To(g', l') := CloseStep(g, t, cp); Balanced(g, t, Close(cp), g', l')
  {
    match cp
    case Beginning =>
    case AwaitingSends(_) =>
    case WantingPoolMu(_) =>
    case Draining(_, _, _) =>
  }

  lemma HolderBalanced(g: Shared, t: Tid, pc: SendPc, h: History, ch: Choice)
    requires Held(Send(pc, h)).Some?
    requires Ready(g, t, Send(pc, h)) && DeliverStep(g, t, pc, h, ch).To?
    ensures var To(g', l') := DeliverStep(g, t, pc, h, ch); Balanced(g, t, Send(pc, h), g', l')
  {
    if pc.Putting? || pc.Reputting? {
      PutBalanced(g, t, pc, h, ch);
    } else if pc.RedialCheck? || pc.Redialling? {
      RedialBalanced(g, t, pc, h, ch);
    } else if pc.Releasing? {
      ReleaseBalanced(g, t, pc, h, ch);
    } else if pc.Discarding? {
      DiscardBalanced(g, t, pc, h, ch);
    } else if pc.MarkingLost? || pc.MarkingReconnected? {
      LossBalanced(g, t, pc, h, ch);
    } else {
      MarkBalanced(g, t, pc, h, ch);
    }
  }

  lemma AcquireBalanced(g: Shared, t: Tid, pc: SendPc, h: History, ch: Choice)
    requires Acquiring(pc)
    requires Ready(g, t, Send(pc, h)) && AcquireStep(g, t, pc, h, ch).To?
    ensures var To(g', l') := AcquireStep(g, t, pc, h, ch); Balanced(g, t, Send(pc, h), g', l')
  {
    if pc.CheckingCtx? || pc.TryingPool? {
      LookBalanced(g, t, pc, h, ch);
    } else if pc.Waiting? {
      WaitBalanced(g, t, pc, h, ch);
    } else if pc.Reserving? || pc.DialCheck? {
      ReserveBalanced(g, t, pc, h, ch);
    } else if pc.Dialling? {
      DialBalanced(g, t, pc, h, ch);
    } else {
      UnreserveBalanced(g, t, pc, h, ch);
    }
  }

  lemma SendBalanced(g: Shared, t: Tid, pc: SendPc, h: History, ch: Choice)
    requires Ready(g, t, Send(pc, h)) && SendStep(g, t, pc, h, ch).To?
    ensures var To(g', l') := SendStep(g, t, pc, h, ch); Balanced(g, t, Send(pc, h), g', l')
  {
    if Held(Send(pc, h)).Some? {
      HolderBalanced(g, t, pc, h, ch);
    } else if Acquiring(pc) {
      AcquireBalanced(g, t, pc, h, ch);
    } else if pc.Uncounting? || pc.MarkingFailed? {
      FailureBalanced(g, t, pc, h);
    } else {
      GateBalanced(g, t, pc, h);
    }
  }

  lemma ProbeBalanced(g: Shared, t: Tid, pp: ProbePc)
    requires Ready(g, t, Probe(pp)) && ProbeStep(g, t, pp).To?
    ensures var To(g', l') := ProbeStep(g, t, pp); Balanced(g, t, Probe(pp), g', l')
  {
    if pp.Peeking? || pp.Inspecting? || pp.Restoring? {
      PeekBalanced(g, t, pp);
    } else {
      LockBalanced(g, t, pp);
    }
  }

  lemma StepBalanced(g: Shared, t: Tid, l: Local, ch: Choice)
    requires Ready(g, t, l) && LocalStep(g, t, l, ch).To?
    ensures var To(g', l') := LocalStep(g, t, l, ch); Balanced(g, t, l, g', l')
  {
    match l
    case Send(pc, h) => SendBalanced(g, t, pc, h, ch);
    case Probe(pp) => ProbeBalanced(g, t, pp);
    case Close(cp) => CloseBalanced(g, t, cp);
  }

  // -------------------------------------------------- what happens to handles

  ghost predicate Owned(g: Shared, t: Tid, l: Local) {
    PoolOwned(g) && Holds(g, t, l) && Up(g, l)
  }

  /** A step of `t` moves no handle into or out of another thread's hands and
      leaves the state of those connections alone. */
  ghost predicate HandlesKept(g: Shared, g': Shared, t: Tid) {
    && |g.owner| <= |g'.owner| && |g'.owner| == |g'.conn|
    && (forall u, c :: u != t && 0 <= c < |g'.owner| ==>
          (g'.owner[c] == HeldBy(u) <==> c < |g.owner| && g.owner[c] == HeldBy(u)))
    && (forall c :: 0 <= c < |g.owner| && c < |g.conn| && g.owner[c].HeldBy? && g.owner[c].t != t ==>
          g'.conn[c] == g.conn[c])
  }

  ghost predicate Handled(g: Shared, t: Tid, g': Shared, l': Local) {
    Owned(g', t, l') && HandlesKept(g, g', t)
  }

  predicate SameHandles(g: Shared, g': Shared) {
    g'.core.pool == g.core.pool && g'.conn == g.conn && g'.owner == g.owner
  }

  lemma KeepingHandled(g: Shared, t: Tid, l: Local, g': Shared, l': Local)
    requires Owned(g, t, l) && SameHandles(g, g')
    requires Held(l') == Held(l) && (MustBeUp(l') ==> MustBeUp(l))
    ensures Handled(g, t, g', l')
  {
  }

  lemma ReceivingHandled(g: Shared, t: Tid, l: Local, l': Local)
    requires Owned(g, t, l) && g.core.pool != []
    requires Held(l).None? && Held(l') == Some(g.core.pool[0])
    ensures Handled(g, t, Receives(g, t), l')
  {
    var g' := Receives(g, t);
    assert forall i :: 0 <= i < |g'.core.pool| ==> g'.core.pool[i] == g.core.pool[i + 1];
    forall c | 0 <= c < |g'.owner| && g'.owner[c] == Idle
      ensures c in g'.core.pool
    {
      assert c in g.core.pool && c != g.core.pool[0];
    }
  }

  lemma ReturningHandled(g: Shared, t: Tid, l: Local, l': Local)
    requires Owned(g, t, l) && MustBeUp(l) && Held(l').None?
    ensures Handled(g, t, Returns(g, Held(l).value), l')
  {
    var c := Held(l).value;
    var g' := Returns(g, c);
    assert forall d :: d in g.core.pool ==> d in g'.core.pool;
    assert g'.core.pool[|g.core.pool|] == c;
  }

  lemma ClosingHandled(g: Shared, t: Tid, l: Local, l': Local)
    requires Owned(g, t, l) && Held(l).Some? && Held(l').None?
    ensures Handled(g, t, Closes(g, Held(l).value), l')
  {
  }

  lemma RestatingHandled(g: Shared, t: Tid, l: Local, st: ConnectionState, l': Local)
    requires Owned(g, t, l) && Held(l).Some? && Held(l') == Held(l)
    requires MustBeUp(l') ==> st == Connected
    ensures Handled(g, t, WithConnState(g, Held(l).value, st), l')
  {
  }

  lemma DiallingHandled(g: Shared, t: Tid, l: Local, l': Local)
    requires Owned(g, t, l) && Held(l).None? && Held(l') == Some(|g.owner|)
    ensures Handled(g, t, g.(conn := g.conn + [Connected], owner := g.owner + [HeldBy(t)]), l')
  {
  }

  lemma DrainingHandled(g: Shared, t: Tid, l: Local, l': Local)
    requires Owned(g, t, l) && g.core.pool != [] && Held(l).None? && Held(l').None?
    ensures Handled(g, t, Closes(g, g.core.pool[0]).(core := Take(g.core)), l')
  {
    var g' := Closes(g, g.core.pool[0]).(core := Take(g.core));
    assert forall i :: 0 <= i < |g'.core.pool| ==> g'.core.pool[i] == g.core.pool[i + 1];
    forall c | 0 <= c < |g'.owner| && g'.owner[c] == Idle
      ensures c in g'.core.pool
    {
      assert c in g.core.pool && c != g.core.pool[0];
    }
  }

  /** Handled depends on the pool and the handles only. */
  lemma HandledElsewhere(g: Shared, t: Tid, g1: Shared, g2: Shared, l': Local)
    requires Handled(g, t, g1, l') && SameHandles(g1, g2)
    ensures Handled(g, t, g2, l')
  {
  }

  lemma AcquireHandled(g: Shared, t: Tid, pc: SendPc, h: History, ch: Choice)
    requires Owned(g, t, Send(pc, h)) && Acquiring(pc) && AcquireStep(g, t, pc, h, ch).To?
    ensures var To(g', l') := AcquireStep(g, t, pc, h, ch); Handled(g, t, g', l')
  {
    var l := Send(pc, h);
    var To(g', l') := AcquireStep(g, t, pc, h, ch);
    if pc.Dialling? && ch == DialOk {
      DiallingHandled(g, t, l, l');
    } else if Held(l').Some? {
      ReceivingHandled(g, t, l, l');
    } else {
      KeepingHandled(g, t, l, g', l');
    }
  }

  lemma DeliverHandled(g: Shared, t: Tid, pc: SendPc, h: History, ch: Choice)
    requires Owned(g, t, Send(pc, h)) && Held(Send(pc, h)).Some? && DeliverStep(g, t, pc, h, ch).To?
    ensures var To(g', l') := DeliverStep(g, t, pc, h, ch); Handled(g, t, g', l')
  {
    var l := Send(pc, h);
    var To(g', l') := DeliverStep(g, t, pc, h, ch);
    match pc
    case MarkingLost(c, _) =>
      RestatingHandled(g, t, l, Reconnecting, l');
      HandledElsewhere(g, t, WithConnState(g, c, Reconnecting), g', l');
    case RedialCheck(_) => KeepingHandled(g, t, l, g', l');
    case Redialling(c) => RestatingHandled(g, t, l, if ch.RedialOk? then Connected else Failed, l');
    case Releasing(_, _) => ReturningHandled(g, t, l, l');
    case Discarding(_, _, _) => ClosingHandled(g, t, l, l');
    case Acquired(_) => KeepingHandled(g, t, l, g', l');
    case Putting(_) => KeepingHandled(g, t, l, g', l');
    case MarkingReconnected(_) => KeepingHandled(g, t, l, g', l');
    case Reputting(_) => KeepingHandled(g, t, l, g', l');
    case MarkingSent(_) => KeepingHandled(g, t, l, g', l');
  }

  lemma FrameHandled(g: Shared, t: Tid, pc: SendPc, h: History)
    requires Owned(g, t, Send(pc, h)) && Held(Send(pc, h)).None? && FrameStep(g, t, pc, h).To?
    ensures var To(g', l') := FrameStep(g, t, pc, h); Handled(g, t, g', l')
  {
    var To(g', l') := FrameStep(g, t, pc, h);
    KeepingHandled(g, t, Send(pc, h), g', l');
  }

  lemma ProbeHandled(g: Shared, t: Tid, pp: ProbePc)
    requires Owned(g, t, Probe(pp)) && ProbeStep(g, t, pp).To?
    ensures var To(g', l') := ProbeStep(g, t, pp); Handled(g, t, g', l')
  {
    var To(g', l') := ProbeStep(g, t, pp);
    if pp.Peeking? && g.core.pool != [] {
      ReceivingHandled(g, t, Probe(pp), l');
    } else if pp.Restoring? {
      ReturningHandled(g, t, Probe(pp), l');
    } else {
      KeepingHandled(g, t, Probe(pp), g', l');
    }
  }

  lemma CloseHandled(g: Shared, t: Tid, cp: ClosePc)
    requires Owned(g, t, Close(cp)) && CloseStep(g, t, cp).To?
    ensures var To(g', l') := CloseStep(g, t, cp); Handled(g, t, g', l')
  {
    var To(g', l') := CloseStep(g, t, cp);
    if cp.Draining? && cp.round < cp.bound && g.core.pool != [] {
      DrainingHandled(g, t, Close(cp), l');
      HandledElsewhere(g, t, Closes(g, g.core.pool[0]).(core := Take(g.core)), g', l');
    } else {
      KeepingHandled(g, t, Close(cp), g', l');
    }
  }

  lemma StepHandled(g: Shared, t: Tid, l: Local, ch: Choice)
    requires Owned(g, t, l) && LocalStep(g, t, l, ch).To?
    ensures var To(g', l') := LocalStep(g, t, l, ch); Handled(g, t, g', l')
  {
    match l
    case Send(pc, h) =>
      if Held(l).Some? {
        DeliverHandled(g, t, pc, h, ch);
      } else if Acquiring(pc) {
        AcquireHandled(g, t, pc, h, ch);
      } else {
        FrameHandled(g, t, pc, h);
      }
    case Probe(pp) => ProbeHandled(g, t, pp);
    case Close(cp) => CloseHandled(g, t, cp);
  }

  // ---------------------------------------------------------- the whole state

  lemma OthersStillFit(g: Shared, g': Shared, t: Tid, u: Tid, l: Local)
    requires Kept(g, g', t) && HandlesKept(g, g', t) && u != t
    requires |g.conn| == |g.owner| && (g.core.closed <==> g.closer.Some?)
    requires Fits(g, u, l)
    ensures Fits(g', u, l)
  {
    assert Holds(g', u, l) && Up(g', l);
    match l
    case Send(pc, h) =>
    case Probe(pp) =>
    case Close(cp) =>
  }

  /** While `close` drains, no send is in flight and no probe has a connection. */
  lemma DrainingAlone(s: State, t: Tid)
    requires Inv(s) && t in s.threads && s.threads[t].Close? && s.threads[t].cp.Draining?
    ensures Where(s.threads, HasSlot) == {}
    ensures Where(s.threads, InFlight) == {}
  {
    assert Fits(s.g, t, s.threads[t]);
    assert |Where(s.threads, InFlight)| == 0;
    forall u | u in s.threads
      ensures !HasSlot(s.threads[u])
    {
      assert Fits(s.g, u, s.threads[u]);
      assert u !in Where(s.threads, InFlight);
    }
  }

  lemma RunsReady(s: State, t: Tid)
    requires Inv(s) && t in s.threads
    ensures Ready(s.g, t, s.threads[t])
  {
    var l := s.threads[t];
    assert Fits(s.g, t, l);
    if InFlight(l) {
      assert t in Where(s.threads, InFlight);
    }
    if l.Close? && l.cp.Draining? {
      DrainingAlone(s, t);
    }
  }

  lemma EntryFits(g: Shared, t: Tid, l: Local)
    requires Entry(l) && Absent(g, t)
    ensures Fits(g, t, l) && !HasSlot(l) && !InFlight(l)
  {
  }

  lemma CallKeepsInv(s: State, t: Tid, l: Local)
    requires Inv(s) && t !in s.threads && Entry(l)
    ensures Inv(s.(threads := s.threads[t := l]))
  {
    EntryFits(s.g, t, l);
    WhereUpdate(s.threads, t, l, HasSlot);
    WhereUpdate(s.threads, t, l, InFlight);
  }

  lemma CancelKeepsInv(s: State, t: Tid)
    requires Inv(s)
    ensures Inv(s.(g := s.g.(cancelled := s.g.cancelled + {t})))
  {
    var g' := s.g.(cancelled := s.g.cancelled + {t});
    forall u | u in s.threads
      ensures Fits(g', u, s.threads[u])
    {
      assert Fits(s.g, u, s.threads[u]);
    }
    forall u | u !in s.threads
      ensures Absent(g', u)
    {
      assert Absent(s.g, u);
    }
  }

  lemma AbsentStays(g: Shared, g': Shared, t: Tid, u: Tid)
    requires Kept(g, g', t) && HandlesKept(g, g', t) && u != t && Absent(g, u)
    ensures Absent(g', u)
  {
  }

  lemma AllOthersStillFit(s: State, g': Shared, t: Tid)
    requires Inv(s) && Kept(s.g, g', t) && HandlesKept(s.g, g', t) && t in s.threads
    ensures forall u :: u in s.threads && u != t ==> Fits(g', u, s.threads[u])
    ensures forall u :: u !in s.threads ==> Absent(g', u)
  {
    forall u | u in s.threads && u != t
      ensures Fits(g', u, s.threads[u])
    {
      OthersStillFit(s.g, g', t, u, s.threads[u]);
    }
    forall u | u !in s.threads
      ensures Absent(g', u)
    {
      AbsentStays(s.g, g', t, u);
    }
  }

  lemma RunKeepsInv(s: State, t: Tid, ch: Choice)
    requires Inv(s) && t in s.threads && LocalStep(s.g, t, s.threads[t], ch).To?
    ensures var To(g', l') := LocalStep(s.g, t, s.threads[t], ch); Inv(State(g', s.threads[t := l']))
  {
    var l := s.threads[t];
    var To(g', l') := LocalStep(s.g, t, l, ch);
    RunsReady(s, t);
    StepBalanced(s.g, t, l, ch);
    StepHandled(s.g, t, l, ch);
    WhereUpdate(s.threads, t, l', HasSlot);
    WhereUpdate(s.threads, t, l', InFlight);
    AllOthersStillFit(s, g', t);
  }

  lemma NextKeepsInv(s: State, step: Step)
    requires Inv(s) && Next(s, step).Some?
    ensures Inv(Next(s, step).value)
  {
    match step
    case Call(t, l) => CallKeepsInv(s, t, l);
    case Cancel(t) => CancelKeepsInv(s, t);
    case Run(t, ch) => RunKeepsInv(s, t, ch);
  }

  lemma InvKept()
    ensures Keeps(Next, Inv)
  {
    forall s, step | Inv(s) && Next(s, step).Some?
      ensures Inv(Next(s, step).value)
    {
      NextKeepsInv(s, step);
    }
  }

  lemma ExecKeepsInv(s: State, steps: seq<Step>)
    requires Inv(s) && Exec(Next, s, steps).Some?
    ensures Inv(Exec(Next, s, steps).value)
  {
    InvKept();
    ExecKeeps(Next, Inv, s, steps);
  }

  lemma InvHolds(s: State)
    requires Reachable(s)
    ensures Inv(s)
  {
    var maxConns: nat :| maxConns >= 1 && Reaches(Next, Init(maxConns), s);
    assert Where(Init(maxConns).threads, HasSlot) == {};
    assert Where(Init(maxConns).threads, InFlight) == {};
    InvKept();
    ReachesKeeps(Next, Inv, Init(maxConns), s);
  }
}
