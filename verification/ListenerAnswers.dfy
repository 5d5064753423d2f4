/** How a consumer answers to what IBM MQ tells it: the states it shows and the error it
    ends with are a function of the dials, breaks and redials it met. */
module ListenerAnswers {
  import opened Errors
  import opened ConnectionStates
  import opened Counting
  import opened Runs
  import opened ListenerProtocol
  import opened ListenerTheorems

  // ------------------------------------------------------------------ the story

  /** The state a consumer has to show next. */
  function ShowsAfter(a: Answer): ConnectionState {
    match a
    case CameUp => Connected
    case DialBad(_) => Failed
    case RedialBad(_) => Failed
    case Broke(e) => if IsConnectionError(e) then Reconnecting else Failed
  }

  /** The consumer is done for, with this error. */
  predicate EndsWith(a: Answer, e: Error) {
    match a
    case CameUp => false
    case DialBad(e') => e' == e
    case RedialBad(e') => e' == e
    case Broke(e') => e' == e && !IsConnectionError(e)
  }

  function Story(answers: seq<Answer>): (trace: seq<ConnectionState>)
    ensures |trace| == |answers| + 2
  {
    if answers == [] then [Unknown, Reconnecting]
    else Story(answers[..|answers| - 1]) + [ShowsAfter(answers[|answers| - 1])]
  }

  function Last(c: Consumer): Answer
    requires c.answers != []
  {
    c.answers[|c.answers| - 1]
  }

  /** The consumer has shown all it has to show. */
  predicate Shown(c: Consumer) {
    c.trace == Story(c.answers)
  }

  /** It has still to show the last of it. */
  predicate Behind(c: Consumer) {
    c.answers != [] && c.trace == Story(c.answers[..|c.answers| - 1])
  }

  predicate IsUp(c: Consumer) {
    c.answers != [] && Last(c).CameUp?
  }

  predicate IsDown(c: Consumer) {
    c.answers != [] && Last(c).Broke? && IsConnectionError(Last(c).err)
  }

  /** The trace of a consumer that stopped because its context ended: at whatever point of
      its story that was. */
  predicate StoppedShort(c: Consumer, trace: seq<ConnectionState>) {
    || (c.answers == [] && trace == [Unknown])
    || trace == Story(c.answers)
    || (c.answers != [] && trace == Story(c.answers[..|c.answers| - 1]))
  }

  /** No answer but the last one ends the consumer. */
  ghost predicate WentOn(answers: seq<Answer>) {
    forall k :: 0 <= k < |answers| - 1 ==> ShowsAfter(answers[k]) != Failed
  }

  ghost predicate Tells(c: Consumer, cancelled: bool) {
    && WentOn(c.answers)
    && match c.pc
       case NotSpawned => c.answers == [] && c.trace == [Unknown]
       case Entering => c.answers == [] && c.trace == [Unknown]
       case MarkingDial => c.answers == [] && c.trace == [Unknown]
       case DialCheck => c.answers == [] && Shown(c)
       case Dialling => c.answers == [] && Shown(c)
       case DialFailed(e) => (c.answers == [DialBad(e)] && Behind(c)) || (cancelled && c.answers == [] && Shown(c))
       case MarkingUp => IsUp(c) && Behind(c)
       case LoopFailed(e) => c.answers != [] && Last(c) == Broke(e) && Behind(c)
       case MarkingLost => IsDown(c) && Behind(c)
       case RedialCheck => IsDown(c) && Shown(c)
       case Redialling => IsDown(c) && Shown(c)
       case RedialFailed(e) =>
         (c.answers != [] && Last(c) == RedialBad(e) && Behind(c)) || (cancelled && IsDown(c) && Shown(c))
       case Exiting(r) =>
         if r.None? then cancelled && StoppedShort(c, c.trace)
         else Behind(c) && EndsWith(Last(c), r.value)
       case Reporting(r) => Ended(c, r, cancelled)
       case Finished(r) => Ended(c, r, cancelled)
       case _ => IsUp(c) && Shown(c)
  }

  predicate Ended(c: Consumer, r: Option<Error>, cancelled: bool) {
    if r.None? then
      && cancelled && c.trace != [] && c.trace[|c.trace| - 1] == Stopped
      && StoppedShort(c, c.trace[..|c.trace| - 1])
    else c.answers != [] && Shown(c) && EndsWith(Last(c), r.value)
  }

  // ------------------------------------------------------------- every step keeps it

  lemma ToldTells(c: Consumer, pc: ConsumerPc, a: Answer)
    requires WentOn(c.answers) && Shown(c) && (c.answers == [] || ShowsAfter(Last(c)) != Failed)
    ensures var c' := Told(c, pc, a); WentOn(c'.answers) && c'.answers != [] && Last(c') == a && Behind(c')
  {
    assert (c.answers + [a])[..|c.answers|] == c.answers;
  }

  lemma MarkedTells(c: Consumer, pc: ConsumerPc)
    requires Behind(c)
    ensures Shown(Marked(c, pc, ShowsAfter(Last(c))))
  {
  }

  lemma StoppedTells(c: Consumer, pc: ConsumerPc)
    requires StoppedShort(c, c.trace)
    ensures var c' := Marked(c, pc, Stopped); c'.trace[|c'.trace| - 1] == Stopped && StoppedShort(c', c'.trace[..|c'.trace| - 1])
  {
    var c' := Marked(c, pc, Stopped);
    assert c'.trace[..|c'.trace| - 1] == c.trace;
  }

  lemma ConsumeTells(g: Shared, i: Index, c: Consumer, ch: Choice)
    requires Tells(c, g.cancelled) && Consuming(c.pc) && ConsumeStep(g, i, c, ch).To?
    ensures Tells(ConsumeStep(g, i, c, ch).c, g.cancelled)
  {
    match c.pc
    case LoopTop =>
    case Opening =>
      if ch.Fail? {
        ToldTells(c, LoopFailed(ch.err), Broke(ch.err));
      }
    case Polling =>
    case Getting =>
      if ch.Fail? || ch.GetLost? {
        ToldTells(c, LoopFailed(ch.err), Broke(ch.err));
      }
    case Fetched(_) =>
    case Handling(_) =>
    case ReportingFailure(_, _) =>
  }

  lemma ConnectTells(n: nat, g: Shared, i: Index, c: Consumer, ch: Choice)
    requires c.pc.Entering? || c.pc.MarkingDial? || c.pc.DialCheck? || c.pc.Dialling? || c.pc.DialFailed? || c.pc.MarkingUp?
    requires Tells(c, g.cancelled) && LifecycleStep(n, g, i, c, ch).To?
    ensures Tells(LifecycleStep(n, g, i, c, ch).c, g.cancelled)
  {
    match c.pc
    case Entering =>
    case MarkingDial =>
    case DialCheck =>
    case Dialling =>
      if ch.Ok? {
        ToldTells(c, MarkingUp, CameUp);
      } else if ch.Fail? {
        ToldTells(c, DialFailed(ch.err), DialBad(ch.err));
      }
    case DialFailed(_) =>
    case MarkingUp => MarkedTells(c, LoopTop);
  }

  lemma ReconnectTells(n: nat, g: Shared, i: Index, c: Consumer, ch: Choice)
    requires c.pc.LoopFailed? || c.pc.MarkingLost? || c.pc.RedialCheck? || c.pc.Redialling? || c.pc.RedialFailed?
    requires Tells(c, g.cancelled) && LifecycleStep(n, g, i, c, ch).To?
    ensures Tells(LifecycleStep(n, g, i, c, ch).c, g.cancelled)
  {
    match c.pc
    case LoopFailed(_) =>
    case MarkingLost => MarkedTells(c, RedialCheck);
    case RedialCheck =>
    case Redialling =>
      if ch.Ok? {
        ToldTells(c, MarkingUp, CameUp);
      } else if ch.Fail? {
        ToldTells(c, RedialFailed(ch.err), RedialBad(ch.err));
      }
    case RedialFailed(_) =>
  }

  lemma LeaveTells(n: nat, g: Shared, i: Index, c: Consumer, ch: Choice)
    requires c.pc.Exiting? || c.pc.Reporting?
    requires Tells(c, g.cancelled) && LifecycleStep(n, g, i, c, ch).To?
    ensures Tells(LifecycleStep(n, g, i, c, ch).c, g.cancelled)
  {
    match c.pc
    case Exiting(r) =>
      if r.Some? {
        MarkedTells(c, Reporting(r));
      } else {
        StoppedTells(c, Reporting(r));
      }
    case Reporting(_) =>
  }

  lemma StepTells(n: nat, g: Shared, i: Index, c: Consumer, ch: Choice)
    requires Tells(c, g.cancelled) && ConsumerStep(n, g, i, c, ch).To?
    ensures Tells(ConsumerStep(n, g, i, c, ch).c, g.cancelled)
  {
    if Consuming(c.pc) {
      ConsumeTells(g, i, c, ch);
    } else if c.pc.Exiting? || c.pc.Reporting? {
      LeaveTells(n, g, i, c, ch);
    } else if c.pc.LoopFailed? || c.pc.MarkingLost? || c.pc.RedialCheck? || c.pc.Redialling? || c.pc.RedialFailed? {
      ReconnectTells(n, g, i, c, ch);
    } else {
      ConnectTells(n, g, i, c, ch);
    }
  }

  // ------------------------------------------------------------------ all states

  ghost predicate AllTell(s: State) {
    forall i :: i in s.consumers ==> Tells(s.consumers[i], s.g.cancelled)
  }

  lemma TellsOn(c: Consumer, was: bool, now: bool)
    requires Tells(c, was) && (was ==> now)
    ensures Tells(c, now)
  {
  }

  /** The context never comes back to life, and consumers move only by their own steps and
      when they are spawned. */
  lemma OnlyConsumersMove(s: State, step: Step)
    requires !step.Consume? && Next(s, step).Some?
    ensures var s' := Next(s, step).value;
      && (s.g.cancelled ==> s'.g.cancelled) && s'.n == s.n && s'.consumers.Keys == s.consumers.Keys
      && forall i :: i in s.consumers ==>
           || s'.consumers[i] == s.consumers[i]
           || (step.RunStart? && s.starts[step.t] == Spawning(i)
               && s'.consumers[i] == s.consumers[i].(pc := Entering, spawned := s.consumers[i].spawned + 1))
  {
    match step
    case RunStart(t) => StartEffect(s, t);
    case CallStart(_) =>
    case CallClose(_) =>
    case RunClose(_) =>
    case CancelCtx =>
    case PutMessage(_) =>
  }

  lemma NextTells(s: State, step: Step)
    requires SpawnsFresh(s) && AllTell(s) && Next(s, step).Some?
    ensures AllTell(Next(s, step).value)
  {
    var s' := Next(s, step).value;
    if step.Consume? {
      StepTells(s.n, s.g, step.i, s.consumers[step.i], step.ch);
      ConsumerAlone(s.n, s.g, step.i, s.consumers[step.i], step.ch);
    } else {
      OnlyConsumersMove(s, step);
      forall i | i in s'.consumers ensures Tells(s'.consumers[i], s'.g.cancelled) {
        TellsOn(s.consumers[i], s.g.cancelled, s'.g.cancelled);
        assert s'.consumers[i] != s.consumers[i] ==> Idle(s.consumers[i]);
      }
    }
  }

  ghost predicate Known(s: State) {
    Inv(s) && AllTell(s)
  }

  lemma KnownKept()
    ensures Keeps(Next, Known)
  {
    InvKept();
    forall s, step | Known(s) && Next(s, step).Some?
      ensures Known(Next(s, step).value)
    {
      HandshakeSpawnsFresh(s);
      NextTells(s, step);
    }
  }

  lemma KnownHolds(s: State)
    requires Reachable(s)
    ensures Known(s)
  {
    var n: nat :| n >= 1 && Reaches(Next, Init(n), s);
    InitHolds(n);
    KnownKept();
    ReachesKeeps(Next, Known, Init(n), s);
  }

  lemma TellsHolds(s: State, i: Index)
    requires Reachable(s) && i in s.consumers
    ensures Tells(s.consumers[i], s.g.cancelled)
  {
    KnownHolds(s);
  }

  lemma TellsLater(s: State, i: Index, step: Step, steps: seq<Step>)
    requires Reachable(s) && Next(s, step).Some? && Exec(Next, Next(s, step).value, steps).Some?
    requires i in Exec(Next, Next(s, step).value, steps).value.consumers
    ensures var s' := Exec(Next, Next(s, step).value, steps).value; Tells(s'.consumers[i], s'.g.cancelled)
  {
    ReachableNext(s, step);
    ReachableExec(Next(s, step).value, steps);
    TellsHolds(Exec(Next, Next(s, step).value, steps).value, i);
  }

  // ------------------------------------------------------------------- theorems

  /** A consumer that is over has shown exactly its story. It ended with an error exactly if
      the last thing it was told is a failed dial, a failed redial, or a break that is not
      of the connection, and then with that very error; without one only because its context
      ended. */
  lemma EndsAsTold(s: State, i: Index)
    requires Reachable(s) && i in s.consumers && s.consumers[i].pc.Finished?
    ensures var c := s.consumers[i];
      && (c.pc.result.Some? ==> c.answers != [] && EndsWith(Last(c), c.pc.result.value) && c.trace == Story(c.answers))
      && (c.pc.result.None? ==> s.g.cancelled && c.trace != [] && c.trace[|c.trace| - 1] == Stopped)
  {
    TellsHolds(s, i);
  }

  /** What an answer calls for: the next state to show, and the error to end with if that
      is Failed. */
  datatype Verdict = Indifferent | Shows(st: ConnectionState) | Ends(err: Error)

  function Calls(pc: ConsumerPc, ch: Choice): Verdict {
    match pc
    case Dialling => (match ch case Ok => Shows(Connected) case Fail(e) => Ends(e) case _ => Indifferent)
    case Redialling => (match ch case Ok => Shows(Connected) case Fail(e) => Ends(e) case _ => Indifferent)
    case Opening => (
      match ch
      case Fail(e) => if IsConnectionError(e) then Shows(Reconnecting) else Ends(e)
      case _ => Indifferent
    )
    case Getting => (
      match ch
      case Fail(e) =>
        if IsEmptyQueueError(e) then Indifferent else if IsConnectionError(e) then Shows(Reconnecting) else Ends(e)
      case GetLost(_, e) => if IsConnectionError(e) then Shows(Reconnecting) else Ends(e)
      case _ => Indifferent
    )
    case _ => Indifferent
  }

  /** Consumer c has taken in the answer and become c1. */
  ghost predicate Heard(c: Consumer, c1: Consumer, v: Verdict) {
    v != Indifferent ==>
      && Shown(c) && |c1.answers| == |c.answers| + 1 && c.answers <= c1.answers
      && match v
         case Indifferent => true
         case Shows(st) => ShowsAfter(Last(c1)) == st && st != Failed
         case Ends(e) => EndsWith(Last(c1), e)
  }

  lemma AnswerTaken(n: nat, g: Shared, i: Index, c: Consumer, ch: Choice)
    requires ConsumerStep(n, g, i, c, ch).To? && Tells(c, g.cancelled)
    ensures Heard(c, ConsumerStep(n, g, i, c, ch).c, Calls(c.pc, ch))
  {
    match c.pc
    case Dialling =>
    case Redialling =>
    case Opening =>
    case Getting =>
    case _ =>
  }

  lemma AnswersStepGrow(n: nat, g: Shared, i: Index, c: Consumer, ch: Choice)
    requires ConsumerStep(n, g, i, c, ch).To?
    ensures c.answers <= ConsumerStep(n, g, i, c, ch).c.answers
  {
    match c.pc
    case Dialling =>
    case Redialling =>
    case Opening =>
    case Getting =>
    case _ =>
  }

  lemma AnswersNextGrow(s: State, i: Index, step: Step)
    requires i in s.consumers && Next(s, step).Some?
    ensures i in Next(s, step).value.consumers && s.consumers[i].answers <= Next(s, step).value.consumers[i].answers
  {
    if step.Consume? {
      AnswersStepGrow(s.n, s.g, step.i, s.consumers[step.i], step.ch);
    } else {
      OnlyConsumersMove(s, step);
    }
  }

  lemma {:induction false} AnswersGrow(s: State, i: Index, steps: seq<Step>)
    requires i in s.consumers && Exec(Next, s, steps).Some?
    ensures i in Exec(Next, s, steps).value.consumers
    ensures s.consumers[i].answers <= Exec(Next, s, steps).value.consumers[i].answers
    decreases |steps|
  {
    if steps != [] {
      AnswersNextGrow(s, i, steps[0]);
      AnswersGrow(Next(s, steps[0]).value, i, steps[1..]);
    }
  }

  /** The k-th answer decides the state at place k + 2 of the story. */
  lemma {:induction false} StoryAt(answers: seq<Answer>, k: nat)
    requires k < |answers|
    ensures Story(answers)[k + 2] == ShowsAfter(answers[k])
  {
    if k < |answers| - 1 {
      StoryAt(answers[..|answers| - 1], k);
    }
  }

  /** A live consumer has shown its story, or all but its last state. */
  lemma LiveTrace(c: Consumer, k: nat)
    requires Tells(c, false) && k < |c.answers| && k + 2 < |c.trace|
    ensures c.trace[k + 2] == ShowsAfter(c.answers[k])
  {
    StoryAt(c.answers, k);
    if Behind(c) {
      StoryAt(c.answers[..|c.answers| - 1], k);
    }
  }

  lemma LiveLength(c: Consumer)
    requires Tells(c, false)
    ensures |c.trace| <= |c.answers| + 2
  {
  }

  /** After an answer that ends the consumer nothing more is said to it. */
  lemma LastWord(c: Consumer, k: nat, e: Error)
    requires Tells(c, false) && k < |c.answers| && EndsWith(c.answers[k], e)
    ensures |c.answers| == k + 1
    ensures c.pc.Finished? ==> c.pc.result == Some(e)
  {
    assert ShowsAfter(c.answers[k]) == Failed;
  }

  /** On every run on which the context has not ended: a dial or redial that succeeds is
      followed by Connected; a break of the connection, while the queue is opened or a
      message fetched, by Reconnecting; a failed dial or redial, and any other break, by
      Failed, and the consumer then ends with exactly that error and shows nothing more.
      One that goes on ends only with the error of a later answer. */
  lemma AnswerDecides(s: State, i: Index, ch: Choice, steps: seq<Step>)
    requires Reachable(s) && i in s.consumers && Next(s, Consume(i, ch)).Some? && Calls(s.consumers[i].pc, ch) != Indifferent
    requires Exec(Next, Next(s, Consume(i, ch)).value, steps).Some?
    requires !Exec(Next, Next(s, Consume(i, ch)).value, steps).value.g.cancelled
    ensures i in Exec(Next, Next(s, Consume(i, ch)).value, steps).value.consumers
    ensures var c, c' := s.consumers[i], Exec(Next, Next(s, Consume(i, ch)).value, steps).value.consumers[i];
      Follows(c, c', Calls(c.pc, ch))
  {
    assert Tells(s.consumers[i], s.g.cancelled) by { TellsHolds(s, i); }
    var c1 := Answered(s, i, ch);
    AnswersGrow(Next(s, Consume(i, ch)).value, i, steps);
    var s' := Exec(Next, Next(s, Consume(i, ch)).value, steps).value;
    assert Tells(s'.consumers[i], false) by { TellsLater(s, i, Consume(i, ch), steps); }
    FollowsAnswer(s.consumers[i], c1, s'.consumers[i], Calls(s.consumers[i].pc, ch));
  }

  lemma Answered(s: State, i: Index, ch: Choice) returns (c1: Consumer)
    requires i in s.consumers && Next(s, Consume(i, ch)).Some? && Tells(s.consumers[i], s.g.cancelled)
    ensures i in Next(s, Consume(i, ch)).value.consumers && c1 == Next(s, Consume(i, ch)).value.consumers[i]
    ensures Heard(s.consumers[i], c1, Calls(s.consumers[i].pc, ch))
  {
    c1 := ConsumerStep(s.n, s.g, i, s.consumers[i], ch).c;
    AnswerTaken(s.n, s.g, i, s.consumers[i], ch);
  }

  /** What consumer c', later the same as c, has done about the verdict c got. */
  ghost predicate Follows(c: Consumer, c': Consumer, v: Verdict) {
    match v
    case Indifferent => true
    case Shows(st) =>
      && (|c'.trace| > |c.trace| ==> c'.trace[|c.trace|] == st)
      && (c'.pc.Finished? ==> |c'.answers| > |c.answers| + 1 && c'.pc.result.Some? && EndsWith(Last(c'), c'.pc.result.value))
    case Ends(e) =>
      && |c'.trace| <= |c.trace| + 1
      && (|c'.trace| > |c.trace| ==> c'.trace[|c.trace|] == Failed)
      && (c'.pc.Finished? ==> c'.pc.result == Some(e) && |c'.trace| == |c.trace| + 1)
  }

  lemma FollowsAnswer(c: Consumer, c1: Consumer, c': Consumer, v: Verdict)
    requires v != Indifferent && Heard(c, c1, v) && Tells(c', false) && c1.answers <= c'.answers
    ensures Follows(c, c', v)
  {
    var k := |c.answers|;
    assert c'.answers[k] == c1.answers[k];
    LiveLength(c');
    if k + 2 < |c'.trace| {
      LiveTrace(c', k);
    }
    if v.Ends? {
      LastWord(c', k, v.err);
    }
  }

  /** An empty queue is no break: the consumer polls again and has been told nothing. */
  lemma EmptyQueueIsNoBreak(s: State, i: Index, e: Error)
    requires i in s.consumers && s.consumers[i].pc.Getting? && IsEmptyQueueError(e)
    ensures Next(s, Consume(i, Fail(e))) == Some(s.(consumers := s.consumers[i := s.consumers[i].(pc := Polling)]))
  {
  }

  // ---------------------------------------------------------------- the handler

  /** Message m is settled, or about to be reported, with this result. */
  ghost predicate SettledAs(place: map<Msg, Place>, i: Index, m: Msg, r: Option<Error>) {
    m in place && (place[m] == Done(r) || (r.Some? && place[m] == Owing(i, r.value)))
  }

  lemma MailKeepsResult(b: Mail, cs: map<Index, Consumer>, i: Index, m: Msg, r: Option<Error>, j: Index, ch: Choice, b': Mail, pc': ConsumerPc)
    requires Conserved(b, cs) && SettledAs(b.place, i, m, r) && j in cs && MailMove(b, j, cs[j].pc, ch, b', pc')
    ensures SettledAs(b'.place, i, m, r)
  {
    match cs[j].pc
    case Getting =>
    case Fetched(_) => assert Claim(cs[j].pc, j).Some?;
    case Handling(_) => assert Claim(cs[j].pc, j).Some?;
    case ReportingFailure(_, _) => assert Claim(cs[j].pc, j).Some?;
    case _ =>
  }

  lemma NextKeepsResult(s: State, i: Index, m: Msg, r: Option<Error>, step: Step)
    requires Conserved(s.g.mail, s.consumers) && SettledAs(s.g.mail.place, i, m, r) && Next(s, step).Some?
    ensures SettledAs(Next(s, step).value.g.mail.place, i, m, r)
  {
    if step.Consume? {
      var move := ConsumerStep(s.n, s.g, step.i, s.consumers[step.i], step.ch);
      MailMoves(s.n, s.g, step.i, s.consumers[step.i], step.ch);
      MailKeepsResult(s.g.mail, s.consumers, i, m, r, step.i, step.ch, move.g.mail, move.c.pc);
    } else if step.RunStart? {
      StartEffect(s, step.t);
    } else {
      OutsideLeavesMessages(s, step);
    }
  }

  lemma {:induction false} ResultStays(s: State, i: Index, m: Msg, r: Option<Error>, steps: seq<Step>)
    requires Inv(s) && SettledAs(s.g.mail.place, i, m, r) && Exec(Next, s, steps).Some?
    ensures SettledAs(Exec(Next, s, steps).value.g.mail.place, i, m, r)
    decreases |steps|
  {
    if steps != [] {
      InvKept();
      NextKeepsResult(s, i, m, r, steps[0]);
      ResultStays(Next(s, steps[0]).value, i, m, r, steps[1..]);
    }
  }

  /** What is on record for a message is what its handler did, on every run from there: nil
      for nil, its own error for an error, and an error that is ErrHandlerPanic for a panic. */
  lemma HandlerResultIsRecorded(s: State, i: Index, m: Msg, ch: Choice, steps: seq<Step>) returns (r: Option<Error>)
    requires Reachable(s) && Stands(s, i, Handling(m)) && (ch.HandlerNil? || ch.HandlerErr? || ch.HandlerPanics?)
    requires Next(s, Consume(i, ch)).Some? && Exec(Next, Next(s, Consume(i, ch)).value, steps).Some?
    ensures SettledAs(Exec(Next, Next(s, Consume(i, ch)).value, steps).value.g.mail.place, i, m, r)
    ensures ch.HandlerNil? ==> r.None?
    ensures ch.HandlerErr? ==> r == Some(ch.err)
    ensures ch.HandlerPanics? ==> r.Some? && HasKind(r.value, HandlerPanic)
  {
    r := ResultOf(ch);
    assert HasKind(PANIC.children[0], HandlerPanic);
    HandlerSettles(s, i, m, ch);
    assert Inv(Next(s, Consume(i, ch)).value) by {
      ReachableNext(s, Consume(i, ch));
      InvHolds(Next(s, Consume(i, ch)).value);
    }
    ResultStays(Next(s, Consume(i, ch)).value, i, m, r, steps);
  }

  lemma HandlerSettles(s: State, i: Index, m: Msg, ch: Choice)
    requires Stands(s, i, Handling(m)) && Next(s, Consume(i, ch)).Some?
    ensures SettledAs(Next(s, Consume(i, ch)).value.g.mail.place, i, m, ResultOf(ch))
  {
    MailMoves(s.n, s.g, i, s.consumers[i], ch);
  }
}
