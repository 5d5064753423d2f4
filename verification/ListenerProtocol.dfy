/** A Listener: N consumers, any number of Start and close calls, and a queue that
    is filled from outside, interleaved step by step. */
module ListenerProtocol {
  import opened Errors
  import opened ConnectionStates
  import Health
  import opened Runs

  type Tid = nat
  type Index = nat
  type Msg = nat

  // --------------------------------------------------------------- consumers

  /** Where a consumer stands in runConsumer and consumeLoop. */
  datatype ConsumerPc =
    | NotSpawned
    | Entering                          // first look at the context
    | MarkingDial
    | DialCheck                         // the retry loop looks at the context
    | Dialling
    | DialFailed(err: Error)
    | MarkingUp
    | LoopTop
    | Opening
    | Polling                           // look at the context before each get
    | Getting
    | Fetched(msg: Msg)                 // removed from the queue, handler not called yet
    | Handling(msg: Msg)
    | ReportingFailure(msg: Msg, err: Error)
    | LoopFailed(err: Error)
    | MarkingLost
    | RedialCheck
    | Redialling
    | RedialFailed(err: Error)
    | Exiting(result: Option<Error>)    // the deferred state update
    | Reporting(result: Option<Error>)  // the send on the error channel
    | Finished(result: Option<Error>)

  /** What IBM MQ has told a consumer that bears on its connection. */
  datatype Answer = CameUp | DialBad(err: Error) | Broke(err: Error) | RedialBad(err: Error)

  /** A consumer, every state its slot has shown, how often it was spawned, and what it
      was told. */
  datatype Consumer = Consumer(pc: ConsumerPc, trace: seq<ConnectionState>, spawned: nat, answers: seq<Answer>)

  const FRESH := Consumer(NotSpawned, [Unknown], 0, [])

  function Shown(c: Consumer): ConnectionState {
    if c.trace == [] then Unknown else c.trace[|c.trace| - 1]
  }

  // ----------------------------------------------------------------- callers

  datatype StartResult = ClientIsClosed | StartedTwice | Joined(errs: seq<Index>)

  datatype StartPc =
    | StartCalled
    | Spawning(next: Index)
    | Joining
    | Collecting
    | Cancelling(errs: seq<Index>)
    | Signalling(errs: seq<Index>)
    | StartReturned(result: StartResult)

  datatype ClosePc =
    | CloseCalled
    | CloseCancelling
    | AwaitingDone
    | CloseReturned(first: bool)        // whether this call found the listener open

  // ------------------------------------------------------------- shared state

  /** Where a message is: in the queue, with consumer i before, in or after its handler
      (then with an error still to be reported), done with, or lost. */
  datatype Place =
    | Queued
    | InHand(i: Index)
    | InHandler(i: Index)
    | Owing(i: Index, err: Error)
    | Done(result: Option<Error>)
    | Lost

  datatype Mail = Mail(
    queue: set<Msg>,
    finished: set<Msg>,                 // handler has returned, failed or panicked
    lost: set<Msg>,                     // removed by a get whose answer never arrived
    invoked: multiset<Msg>,             // handler invocations
    reported: multiset<Msg>,            // calls of reportError for a message
    place: map<Msg, Place>)             // every message ever put

  datatype Shared = Shared(
    started: bool,
    closed: bool,
    cancelled: bool,                    // runCtx is done
    done: bool,                         // the done channel is closed
    runner: Option<Tid>,                // the Start that got through
    errs: seq<Index>,                   // the error channel, by consumer
    mail: Mail)

  datatype State = State(
    n: nat,
    g: Shared,
    consumers: map<Index, Consumer>,
    starts: map<Tid, StartPc>,
    closes: map<Tid, ClosePc>)

  function Indexes(n: nat): (ks: set<Index>)
    ensures |ks| == n && forall i: Index :: i in ks <==> i < n
  {
    if n == 0 then {} else Indexes(n - 1) + {n - 1}
  }

  function Init(n: nat): State {
    State(n, Shared(false, false, false, false, None, [], Mail({}, {}, {}, multiset{}, multiset{}, map[])),
          map i | i in Indexes(n) :: FRESH, map[], map[])
  }

  // -------------------------------------------------------------------- steps

  datatype Choice =
    | Auto
    | Ok
    | Again                             // a failed dial, a sleep, and back to the check
    | Fail(err: Error)
    | Get(msg: Msg)
    | GetLost(msg: Msg, err: Error)
    | HandlerNil
    | HandlerErr(err: Error)
    | HandlerPanics

  datatype Move = Blocked | To(g: Shared, c: Consumer)

  function Goes(c: Consumer, pc: ConsumerPc): Consumer {
    c.(pc := pc)
  }

  function Marked(c: Consumer, pc: ConsumerPc, st: ConnectionState): Consumer {
    c.(pc := pc, trace := c.trace + [st])
  }

  function Told(c: Consumer, pc: ConsumerPc, a: Answer): Consumer {
    c.(pc := pc, answers := c.answers + [a])
  }

  /** Connecting, reconnecting and leaving. */
  function LifecycleStep(n: nat, g: Shared, i: Index, c: Consumer, ch: Choice): Move {
    match c.pc
    case Entering => To(g, Goes(c, if g.cancelled then Exiting(None) else MarkingDial))
    case MarkingDial => To(g, Marked(c, DialCheck, Reconnecting))
    case DialCheck => To(g, Goes(c, if g.cancelled then DialFailed(Plain(Context)) else Dialling))
    case Dialling => (
      match ch
      case Ok => To(g, Told(c, MarkingUp, CameUp))
      case Again => To(g, Goes(c, DialCheck))
      case Fail(e) => To(g, Told(c, DialFailed(e), DialBad(e)))
      case _ => Blocked
    )
    case DialFailed(e) => To(g, Goes(c, if g.cancelled then Exiting(None) else Exiting(Some(e))))
    case MarkingUp => To(g, Marked(c, LoopTop, Connected))
    case LoopFailed(e) =>
      To(g, Goes(c, if g.cancelled then Exiting(None)
                   else if IsConnectionError(e) then MarkingLost
                   else Exiting(Some(e))))
    case MarkingLost => To(g, Marked(c, RedialCheck, Reconnecting))
    case RedialCheck => To(g, Goes(c, if g.cancelled then RedialFailed(Plain(Context)) else Redialling))
    case Redialling => (
      match ch
      case Ok => To(g, Told(c, MarkingUp, CameUp))
      case Again => To(g, Goes(c, RedialCheck))
      case Fail(e) => To(g, Told(c, RedialFailed(e), RedialBad(e)))
      case _ => Blocked
    )
    case RedialFailed(e) => To(g, Goes(c, if g.cancelled then Exiting(None) else Exiting(Some(e))))
    case Exiting(r) => To(g, Marked(c, Reporting(r), if r.Some? then Failed else Stopped))
    case Reporting(r) =>
      if r.None? then To(g, Goes(c, Finished(None)))
      else if |g.errs| < n then To(g.(errs := g.errs + [i]), Goes(c, Finished(r)))
      else Blocked
    case _ => Blocked
  }

  /** A get removes message m for consumer i. */
  function Obtain(b: Mail, m: Msg, i: Index): Mail {
    b.(queue := b.queue - {m}, place := b.place[m := InHand(i)])
  }

  /** A get removes message m, but the connection breaks before the answer arrives. */
  function Mislay(b: Mail, m: Msg): Mail {
    b.(queue := b.queue - {m}, lost := b.lost + {m}, place := b.place[m := Lost])
  }

  /** Consumer i calls the handler. */
  function Invoke(b: Mail, m: Msg, i: Index): Mail {
    b.(invoked := b.invoked + multiset{m}, place := b.place[m := InHandler(i)])
  }

  /** The handler is over; an error is still to be reported. */
  function Conclude(b: Mail, m: Msg, i: Index, result: Option<Error>): Mail {
    b.(finished := b.finished + {m},
       place := b.place[m := if result.Some? then Owing(i, result.value) else Done(None)])
  }

  function Report(b: Mail, m: Msg, err: Error): Mail {
    b.(reported := b.reported + multiset{m}, place := b.place[m := Done(Some(err))])
  }

  function Deposit(b: Mail, m: Msg): Mail {
    b.(queue := b.queue + {m}, place := b.place[m := Queued])
  }

  /** invokeHandler turns a panic into this error. */
  const PANIC := Wrap([Plain(HandlerPanic)])

  /** consumeLoop: one message at a time, removed before its handler runs. */
  function ConsumeStep(g: Shared, i: Index, c: Consumer, ch: Choice): Move {
    match c.pc
    case LoopTop => To(g, Goes(c, if g.cancelled then Exiting(None) else Opening))
    case Opening => (
      match ch
      case Ok => To(g, Goes(c, Polling))
      case Fail(e) => To(g, Told(c, LoopFailed(e), Broke(e)))
      case _ => Blocked
    )
    case Polling => To(g, Goes(c, if g.cancelled then Exiting(None) else Getting))
    case Getting => (
      match ch
      case Fail(e) => To(g, if IsEmptyQueueError(e) then Goes(c, Polling) else Told(c, LoopFailed(e), Broke(e)))
      case Get(m) =>
        if m in g.mail.queue then To(g.(mail := Obtain(g.mail, m, i)), Goes(c, Fetched(m))) else Blocked
      case GetLost(m, e) =>
        if m in g.mail.queue && !IsEmptyQueueError(e) then
          To(g.(mail := Mislay(g.mail, m)), Told(c, LoopFailed(e), Broke(e)))
        else Blocked
      case _ => Blocked
    )
    case Fetched(m) => To(g.(mail := Invoke(g.mail, m, i)), Goes(c, Handling(m)))
    case Handling(m) => (
      match ch
      case HandlerNil => To(g.(mail := Conclude(g.mail, m, i, None)), Goes(c, Polling))
      case HandlerErr(e) => To(g.(mail := Conclude(g.mail, m, i, Some(e))), Goes(c, ReportingFailure(m, e)))
      case HandlerPanics => To(g.(mail := Conclude(g.mail, m, i, Some(PANIC))), Goes(c, ReportingFailure(m, PANIC)))
      case _ => Blocked
    )
    case ReportingFailure(m, e) => To(g.(mail := Report(g.mail, m, e)), Goes(c, Polling))
    case _ => Blocked
  }

  predicate Consuming(pc: ConsumerPc) {
    || pc.LoopTop? || pc.Opening? || pc.Polling? || pc.Getting?
    || pc.Fetched? || pc.Handling? || pc.ReportingFailure?
  }

  function ConsumerStep(n: nat, g: Shared, i: Index, c: Consumer, ch: Choice): Move {
    if Consuming(c.pc) then ConsumeStep(g, i, c, ch) else LifecycleStep(n, g, i, c, ch)
  }

  predicate AllFinished(cs: map<Index, Consumer>) {
    forall i :: i in cs ==> cs[i].pc.Finished?
  }

  /** `Start`, from its mutex section to its deferred calls. */
  function StartStep(s: State, t: Tid): Option<State>
    requires t in s.starts
  {
    match s.starts[t]
    case StartCalled => (
      match Health.Admission(s.g.closed, s.g.started)
      case RefusedClosed => Some(s.(starts := s.starts[t := StartReturned(ClientIsClosed)]))
      case RefusedStarted => Some(s.(starts := s.starts[t := StartReturned(StartedTwice)]))
      case Go => Some(s.(g := s.g.(started := true, runner := Some(t)), starts := s.starts[t := Spawning(0)]))
    )
    case Spawning(i) =>
      if i in s.consumers then
        var c := s.consumers[i];
        Some(s.(consumers := s.consumers[i := c.(pc := Entering, spawned := c.spawned + 1)],
                starts := s.starts[t := Spawning(i + 1)]))
      else Some(s.(starts := s.starts[t := Joining]))
    case Joining => if AllFinished(s.consumers) then Some(s.(starts := s.starts[t := Collecting])) else None
    case Collecting => Some(s.(starts := s.starts[t := Cancelling(s.g.errs)]))
    case Cancelling(es) => Some(s.(g := s.g.(cancelled := true), starts := s.starts[t := Signalling(es)]))
    case Signalling(es) => Some(s.(g := s.g.(done := true), starts := s.starts[t := StartReturned(Joined(es))]))
    case StartReturned(_) => None
  }

  function CloseStep(s: State, t: Tid): Option<State>
    requires t in s.closes
  {
    match s.closes[t]
    case CloseCalled =>
      if s.g.closed then Some(s.(closes := s.closes[t := CloseReturned(false)]))
      else Some(s.(g := s.g.(closed := true),
                   closes := s.closes[t := if s.g.started then CloseCancelling else CloseReturned(true)]))
    case CloseCancelling => Some(s.(g := s.g.(cancelled := true), closes := s.closes[t := AwaitingDone]))
    case AwaitingDone => if s.g.done then Some(s.(closes := s.closes[t := CloseReturned(true)])) else None
    case CloseReturned(_) => None
  }

  datatype Step =
    | CallStart(t: Tid)
    | RunStart(t: Tid)
    | CallClose(t: Tid)
    | RunClose(t: Tid)
    | CancelCtx
    | PutMessage(m: Msg)
    | Consume(i: Index, ch: Choice)

  function Next(s: State, step: Step): Option<State> {
    match step
    case CallStart(t) => if t in s.starts then None else Some(s.(starts := s.starts[t := StartCalled]))
    case RunStart(t) => if t in s.starts then StartStep(s, t) else None
    case CallClose(t) => if t in s.closes then None else Some(s.(closes := s.closes[t := CloseCalled]))
    case RunClose(t) => if t in s.closes then CloseStep(s, t) else None
    case CancelCtx => Some(s.(g := s.g.(cancelled := true)))
    case PutMessage(m) =>
      if m in s.g.mail.place then None else Some(s.(g := s.g.(mail := Deposit(s.g.mail, m))))
    case Consume(i, ch) =>
      if i !in s.consumers then None
      else match ConsumerStep(s.n, s.g, i, s.consumers[i], ch)
        case Blocked => None
        case To(g, c) => Some(s.(g := g, consumers := s.consumers[i := c]))
  }

  ghost predicate Reachable(s: State) {
    exists n: nat :: n >= 1 && Reaches(Next, Init(n), s)
  }
}
