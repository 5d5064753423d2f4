/** Any number of sends, health probes and `close` calls on one Sender, interleaved
    step by step. IBM MQ and the contexts are the environment: the outcome of a
    dial, a put or a reconnect is a choice, and a context can end at any moment. */
module SenderProtocol {
  import opened Errors
  import opened ConnectionStates
  import opened SenderPool
  import opened Runs

  // ------------------------------------------------------------------ threads

  /** How one put ended. A lost acknowledgement means the queue manager took the message. */
  datatype Put = Acked | Refused(err: Error) | AckLost(err: Error)

  /** A state and error put on record. */
  datatype Mark = Mark(state: ConnectionState, err: Option<Error>)

  /** What a send has done so far, and what it met and recorded. */
  datatype History = History(
    puts: seq<Put>, reconnected: bool, acquired: nat, pooled: nat, discarded: nat,
    dialErr: Option<Error>, redialErr: Option<Error>, marks: seq<Mark>)

  const NOTHING_YET := History([], false, 0, 0, 0, None, None, [])

  /** Where a send stands in SendWithCreator and acquireConn. A result is None for a nil error. */
  datatype SendPc =
    | Admitting
    | CheckingCtx
    | TryingPool
    | Reserving
    | Waiting(since: nat)               // value of `drops` when it began to wait
    | DialCheck                         // the retry loop looks at its context
    | Dialling
    | Unreserving(err: Error)
    | CheckingDialCtx(err: Error)
    | MarkingFailed(err: Error)
    | Acquired(conn: ConnId)
    | Putting(conn: ConnId)
    | MarkingLost(conn: ConnId, err: Error)
    | RedialCheck(conn: ConnId)         // Reconnect looks at its context
    | Redialling(conn: ConnId)
    | Discarding(conn: ConnId, err: Error, mark: bool)
    | Uncounting(err: Error, mark: bool)
    | MarkingReconnected(conn: ConnId)
    | Reputting(conn: ConnId)
    | MarkingSent(conn: ConnId)
    | Releasing(conn: ConnId, result: Option<Error>)
    | Leaving(result: Option<Error>)
    | Returned(result: Option<Error>)

  datatype Snapshot = Snapshot(created: int, closed: bool, state: ConnectionState, lastErr: Option<Error>)

  datatype Reason =
    | SenderClosed
    | InState(state: ConnectionState)
    | InStateAfter(state: ConnectionState, err: Error)
    | NoLiveConnections(err: Error)

  /** The entries a probe contributes: none, one alive, or one dead. */
  datatype Answer = NoEntry | Alive | Dead(reason: Reason)

  datatype ProbePc =
    | Snapping
    | WantingMu(snap: Snapshot)
    | Peeking(snap: Snapshot)
    | Inspecting(snap: Snapshot, conn: ConnId)
    | Restoring(snap: Snapshot, conn: ConnId, seen: ConnectionState)
    | Unlocking(snap: Snapshot, answer: Answer)
    | Answered(snap: Snapshot, answer: Answer)

  datatype ClosePc =
    | Beginning
    | AwaitingSends(bound: int)
    | WantingPoolMu(bound: int)
    | Draining(bound: int, round: nat, gone: nat)
    | Finished(bound: int, gone: nat)
    | AlreadyClosed

  datatype Local = Send(pc: SendPc, h: History) | Probe(pp: ProbePc) | Close(cp: ClosePc)

  predicate InFlight(l: Local) {
    l.Send? && !l.pc.Admitting? && !l.pc.Returned?
  }

  /** The connection handle a thread may use. */
  function Held(l: Local): Option<ConnId> {
    match l
    case Send(pc, _) => (
      match pc
      case Acquired(c) => Some(c)
      case Putting(c) => Some(c)
      case MarkingLost(c, _) => Some(c)
      case RedialCheck(c) => Some(c)
      case Redialling(c) => Some(c)
      case Discarding(c, _, _) => Some(c)
      case MarkingReconnected(c) => Some(c)
      case Reputting(c) => Some(c)
      case MarkingSent(c) => Some(c)
      case Releasing(c, _) => Some(c)
      case _ => None
    )
    case Probe(Inspecting(_, c)) => Some(c)
    case Probe(Restoring(_, c, _)) => Some(c)
    case _ => None
  }

  predicate CheckedOut(l: Local) {
    l.Send? && (Held(l).Some? || l.pc.Uncounting?)
  }

  predicate BeingDialled(l: Local) {
    l.Send? && (l.pc.DialCheck? || l.pc.Dialling? || l.pc.Unreserving?)
  }

  predicate HeldByProbe(l: Local) {
    l.Probe? && Held(l).Some?
  }

  /** The thread accounts for one unit of `created`. */
  predicate HasSlot(l: Local) {
    CheckedOut(l) || BeingDialled(l) || HeldByProbe(l)
  }

  predicate HoldsPoolMu(l: Local) {
    match l
    case Probe(pp) => pp.Peeking? || pp.Inspecting? || pp.Restoring? || pp.Unlocking?
    case Close(cp) => cp.Draining?
    case Send(_, _) => false
  }

  // ------------------------------------------------------------- shared state

  datatype Owner = Idle | HeldBy(t: Tid) | Gone

  /** The Sender's fields, the connections dialled so far (numbered in order) with
      their own state and current owner, and the history the properties speak of. */
  datatype Shared = Shared(
    core: Core,
    conn: seq<ConnectionState>,
    owner: seq<Owner>,
    cancelled: set<Tid>,
    drained: nat,                 // connections closed by the drain
    drops: nat,                   // times `created` went down
    closer: Option<Tid>,          // the `close` call that found the sender open
    accepted: map<Tid, nat>)      // copies of each send's message that the queue manager took

  datatype State = State(g: Shared, threads: map<Tid, Local>)

  function Init(maxConns: nat): State {
    State(Shared(NewCore(maxConns), [], [], {}, 0, 0, None, map[]), map[])
  }

  // -------------------------------------------------------------------- steps

  /** The environment's part of a step. */
  datatype Choice =
    | Auto
    | DialOk
    | DialAgain                         // failed, slept, and back to the check
    | DialErr(err: Error)
    | PutAck
    | PutErr(err: Error)
    | PutLost(err: Error)
    | RedialOk
    | RedialAgain
    | RedialErr(err: Error)
    | Receive
    | GiveUp

  datatype Move = Blocked | To(g: Shared, l: Local)

  function On(g: Shared, core: Core, pc: SendPc, h: History): Move {
    To(g.(core := core), Send(pc, h))
  }

  /** A thread takes the oldest idle connection. */
  function Receives(g: Shared, t: Tid): Shared
    requires g.core.pool != []
  {
    var c := g.core.pool[0];
    g.(core := Take(g.core), owner := if c < |g.owner| then g.owner[c := HeldBy(t)] else g.owner)
  }

  function Returns(g: Shared, c: ConnId): Shared {
    g.(core := Give(g.core, c), owner := if c < |g.owner| then g.owner[c := Idle] else g.owner)
  }

  /** `conn.Close()`: the handle is gone for good. */
  function Closes(g: Shared, c: ConnId): Shared {
    if c < |g.owner| && c < |g.conn| then g.(conn := g.conn[c := Failed], owner := g.owner[c := Gone]) else g
  }

  function WithConnState(g: Shared, c: ConnId, st: ConnectionState): Shared {
    if c < |g.conn| then g.(conn := g.conn[c := st]) else g
  }

  function Lowers(g: Shared): Shared {
    g.(core := Unreserve(g.core), drops := g.drops + 1)
  }

  function Marks(g: Shared, st: ConnectionState, err: Option<Error>): Shared {
    g.(core := SetState(g.core, st, err))
  }

  /** acquireConn up to the point where the thread holds a connection. */
  function AcquireStep(g: Shared, t: Tid, pc: SendPc, h: History, ch: Choice): Move {
    match pc
    case CheckingCtx =>
      if t in g.cancelled then To(g, Send(Leaving(Some(Plain(Context))), h)) else To(g, Send(TryingPool, h))
    case TryingPool =>
      if g.core.pool != [] then To(Receives(g, t), Send(Acquired(g.core.pool[0]), h.(acquired := h.acquired + 1)))
      else To(g, Send(Reserving, h))
    case Reserving =>
      On(g, Reserve(g.core), if CanReserve(g.core) then DialCheck else Waiting(g.drops), h)
    case Waiting(_) =>
      if ch == Receive && g.core.pool != [] then
        To(Receives(g, t), Send(Acquired(g.core.pool[0]), h.(acquired := h.acquired + 1)))
      else if ch == GiveUp && t in g.cancelled then To(g, Send(Leaving(Some(Plain(Context))), h))
      else Blocked
    case DialCheck =>
      if t in g.cancelled then To(g, Send(Unreserving(Plain(Context)), h.(dialErr := Some(Plain(Context)))))
      else To(g, Send(Dialling, h))
    case Dialling => (
      match ch
      case DialOk =>
        To(g.(conn := g.conn + [Connected], owner := g.owner + [HeldBy(t)]),
           Send(Acquired(|g.owner|), h.(acquired := h.acquired + 1)))
      case DialAgain => To(g, Send(DialCheck, h))
      case DialErr(e) => To(g, Send(Unreserving(e), h.(dialErr := Some(e))))
      case _ => Blocked
    )
    case Unreserving(e) => To(Lowers(g), Send(CheckingDialCtx(e), h))
    case CheckingDialCtx(e) =>
      if t in g.cancelled then To(g, Send(Leaving(Some(e)), h)) else To(g, Send(MarkingFailed(e), h))
    case _ => Blocked
  }

  function AddMark(h: History, st: ConnectionState, err: Option<Error>): History {
    h.(marks := h.marks + [Mark(st, err)])
  }

  function AddPut(h: History, p: Put): History {
    h.(puts := h.puts + [p])
  }

  /** How many copies of a send's message reached the queue. */
  function Copies(g: Shared, t: Tid): nat {
    if t in g.accepted then g.accepted[t] else 0
  }

  function Accepts(g: Shared, t: Tid): Shared {
    g.(accepted := g.accepted[t := Copies(g, t) + 1])
  }

  /** One MQPUT (with the MQOPEN before it) for message `t`. */
  function PutStep(g: Shared, t: Tid, c: ConnId, h: History, ch: Choice, second: bool): Move {
    match ch
    case PutAck => To(Accepts(g, t), Send(MarkingSent(c), AddPut(h, Acked)))
    case PutErr(e) => To(g, Send(AfterPutError(c, e, second), AddPut(h, Refused(e))))
    case PutLost(e) =>
      if IsConnectionError(e) then
        To(Accepts(g, t), Send(AfterPutError(c, e, second), AddPut(h, AckLost(e))))
      else Blocked
    case _ => Blocked
  }

  function AfterPutError(c: ConnId, e: Error, second: bool): SendPc {
    if second then Discarding(c, e, IsConnectionError(e))
    else if IsConnectionError(e) then MarkingLost(c, e)
    else Releasing(c, Some(e))
  }

  /** SendWithCreator with a connection in hand. */
  function DeliverStep(g: Shared, t: Tid, pc: SendPc, h: History, ch: Choice): Move {
    match pc
    case Acquired(c) => To(Marks(g, Connected, None), Send(Putting(c), AddMark(h, Connected, None)))
    case Putting(c) => PutStep(g, t, c, h, ch, false)
    case MarkingLost(c, e) =>
      To(WithConnState(Marks(g, Reconnecting, Some(e)), c, Reconnecting),
         Send(RedialCheck(c), AddMark(h, Reconnecting, Some(e))))
    case RedialCheck(c) =>
      if t in g.cancelled then
        To(g, Send(Discarding(c, Plain(Context), true), h.(redialErr := Some(Plain(Context)))))
      else To(g, Send(Redialling(c), h))
    case Redialling(c) => (
      match ch
      case RedialOk => To(WithConnState(g, c, Connected), Send(MarkingReconnected(c), h.(reconnected := true)))
      case RedialAgain => To(WithConnState(g, c, Failed), Send(RedialCheck(c), h))
      case RedialErr(e) =>
        To(WithConnState(g, c, Failed), Send(Discarding(c, e, true), h.(redialErr := Some(e))))
      case _ => Blocked
    )
    case MarkingReconnected(c) => To(Marks(g, Connected, None), Send(Reputting(c), AddMark(h, Connected, None)))
    case Reputting(c) => PutStep(g, t, c, h, ch, true)
    case MarkingSent(c) => To(Marks(g, Connected, None), Send(Releasing(c, None), AddMark(h, Connected, None)))
    case Releasing(c, r) =>
      if HasRoom(g.core) then To(Returns(g, c), Send(Leaving(r), h.(pooled := h.pooled + 1))) else Blocked
    case Discarding(c, e, mark) =>
      To(Closes(g, c), Send(Uncounting(e, mark), h.(discarded := h.discarded + 1)))
    case _ => Blocked
  }

  /** Entering, counting a lost connection out, and leaving. */
  function FrameStep(g: Shared, t: Tid, pc: SendPc, h: History): Move {
    match pc
    case Admitting =>
      On(g, Admit(g.core), if g.core.closed then Returned(Some(CLIENT_CLOSED)) else CheckingCtx, h)
    case Uncounting(e, mark) => To(Lowers(g), Send(if mark then MarkingFailed(e) else Leaving(Some(e)), h))
    case MarkingFailed(e) => To(Marks(g, Failed, Some(e)), Send(Leaving(Some(e)), AddMark(h, Failed, Some(e))))
    case Leaving(r) => On(g, Depart(g.core), Returned(r), h)
    case _ => Blocked
  }

  predicate Acquiring(pc: SendPc) {
    || pc.CheckingCtx? || pc.TryingPool? || pc.Reserving? || pc.Waiting?
    || pc.DialCheck? || pc.Dialling? || pc.Unreserving? || pc.CheckingDialCtx?
  }

  function SendStep(g: Shared, t: Tid, pc: SendPc, h: History, ch: Choice): Move {
    if Held(Send(pc, h)).Some? then DeliverStep(g, t, pc, h, ch)
    else if Acquiring(pc) then AcquireStep(g, t, pc, h, ch)
    else FrameStep(g, t, pc, h)
  }

  /** The branches of the probe that need no look at the pool. */
  function Immediate(s: Snapshot): Option<Answer> {
    if s.closed then Some(Dead(SenderClosed))
    else if s.state == Reconnecting then Some(Dead(InState(Reconnecting)))
    else if s.state == Failed then
      Some(Dead(if s.lastErr.Some? then InStateAfter(Failed, s.lastErr.value) else InState(Failed)))
    else if s.created == 0 then
      Some(if s.lastErr.Some? then Dead(NoLiveConnections(s.lastErr.value)) else NoEntry)
    else None
  }

  function ForConn(st: ConnectionState): Answer {
    if st == Connected then Alive else Dead(InState(st))
  }

  function ForEmptyPool(st: ConnectionState): Answer {
    if st == Connected || st == Unknown then Alive else Dead(InState(st))
  }

  function ProbeStep(g: Shared, t: Tid, pp: ProbePc): Move {
    match pp
    case Snapping =>
      var s := Snapshot(g.core.created, g.core.closed, g.core.state, g.core.lastErr);
      To(g, Probe(if Immediate(s).Some? then Answered(s, Immediate(s).value) else WantingMu(s)))
    case WantingMu(s) =>
      if g.core.poolMu.None? then To(g.(core := g.core.(poolMu := Some(t))), Probe(Peeking(s))) else Blocked
    case Peeking(s) =>
      if g.core.pool != [] then To(Receives(g, t), Probe(Inspecting(s, g.core.pool[0])))
      else To(g, Probe(Unlocking(s, ForEmptyPool(s.state))))
    case Inspecting(s, c) => To(g, Probe(Restoring(s, c, if c < |g.conn| then g.conn[c] else Unknown)))
    case Restoring(s, c, st) =>
      if HasRoom(g.core) then To(Returns(g, c), Probe(Unlocking(s, ForConn(st)))) else Blocked
    case Unlocking(s, a) => To(g.(core := g.core.(poolMu := None)), Probe(Answered(s, a)))
    case Answered(_, _) => Blocked
  }

  function CloseStep(g: Shared, t: Tid, cp: ClosePc): Move {
    match cp
    case Beginning =>
      if g.core.closed then To(g, Close(AlreadyClosed))
      else To(g.(core := Shut(g.core), closer := Some(t)), Close(AwaitingSends(g.core.created)))
    case AwaitingSends(b) => if g.core.wg == 0 then To(g, Close(WantingPoolMu(b))) else Blocked
    case WantingPoolMu(b) =>
      if g.core.poolMu.None? then To(g.(core := g.core.(poolMu := Some(t))), Close(Draining(b, 0, 0))) else Blocked
    case Draining(b, i, n) =>
      if i >= b then To(g.(core := g.core.(poolMu := None)), Close(Finished(b, n)))
      else if g.core.pool == [] then To(g, Close(Draining(b, i + 1, n)))
      else
        var g' := Closes(g, g.core.pool[0]);
        To(g'.(core := Take(g.core), drained := g.drained + 1), Close(Draining(b, i + 1, n + 1)))
    case Finished(_, _) => Blocked
    case AlreadyClosed => Blocked
  }

  function LocalStep(g: Shared, t: Tid, l: Local, ch: Choice): Move {
    match l
    case Send(pc, h) => SendStep(g, t, pc, h, ch)
    case Probe(pp) => ProbeStep(g, t, pp)
    case Close(cp) => CloseStep(g, t, cp)
  }

  datatype Step = Call(t: Tid, entry: Local) | Cancel(t: Tid) | Run(t: Tid, ch: Choice)

  predicate Entry(l: Local) {
    l == Send(Admitting, NOTHING_YET) || l == Probe(Snapping) || l == Close(Beginning)
  }

  function Next(s: State, step: Step): Option<State> {
    match step
    case Call(t, l) =>
      if t !in s.threads && Entry(l) then Some(s.(threads := s.threads[t := l])) else None
    case Cancel(t) => Some(s.(g := s.g.(cancelled := s.g.cancelled + {t})))
    case Run(t, ch) =>
      if t !in s.threads then None
      else match LocalStep(s.g, t, s.threads[t], ch)
        case Blocked => None
        case To(g, l) => Some(State(g, s.threads[t := l]))
  }

  ghost predicate Reachable(s: State) {
    exists maxConns: nat :: maxConns >= 1 && Reaches(Next, Init(maxConns), s)
  }
}
