/** No consumer is ever stuck, a cancelled one is soon over, and so `close` can always
    return. Handlers are taken to return. */
module ListenerProgress {
  import opened Errors
  import opened Counting
  import opened Runs
  import opened ListenerProtocol
  import opened ListenerTheorems

  /** The most steps a consumer still takes once the context has ended. */
  function Rank(c: Consumer): nat {
    match c.pc
    case NotSpawned => 8
    case Getting => 7
    case Fetched(_) => 6
    case Handling(_) => 5
    case Dialling => 5
    case Redialling => 5
    case MarkingDial => 5
    case MarkingLost => 5
    case ReportingFailure(_, _) => 4
    case DialCheck => 4
    case RedialCheck => 4
    case MarkingUp => 4
    case Opening => 4
    case Entering => 3
    case DialFailed(_) => 3
    case RedialFailed(_) => 3
    case LoopFailed(_) => 3
    case LoopTop => 3
    case Polling => 3
    case Exiting(_) => 2
    case Reporting(_) => 1
    case Finished(_) => 0
  }

  // ----------------------------------------------------------------- progress

  /** An answer that lets the consumer go on. */
  function SomeAnswer(pc: ConsumerPc): Choice {
    match pc
    case Dialling => Ok
    case Redialling => Ok
    case Opening => Ok
    case Getting => Fail(MQReturn(2, NO_MSG_AVAILABLE))
    case Handling(_) => HandlerNil
    case _ => Auto
  }

  lemma ConsumerMoves(n: nat, g: Shared, i: Index, c: Consumer)
    requires Running(c) && (c.pc.Reporting? ==> |g.errs| < n)
    ensures ConsumerStep(n, g, i, c, SomeAnswer(c.pc)).To?
  {
    match c.pc
    case Getting => assert IsEmptyQueueError(MQReturn(2, NO_MSG_AVAILABLE));
    case _ =>
  }

  /** Every consumer that was spawned and is not over has a step, in every reachable
      state; and one that was not spawned or is over has none. */
  lemma NeverStuck(s: State, i: Index)
    requires Reachable(s) && i in s.consumers
    ensures (exists ch :: Next(s, Consume(i, ch)).Some?) <==> Running(s.consumers[i])
  {
    if Running(s.consumers[i]) {
      ConsumerEnabled(s, i);
    } else {
      forall ch ensures Next(s, Consume(i, ch)).None? {
        if Next(s, Consume(i, ch)).Some? {
          ConsumerAlone(s.n, s.g, i, s.consumers[i], ch);
        }
      }
    }
  }

  lemma ConsumerEnabled(s: State, i: Index)
    requires Reachable(s) && i in s.consumers && Running(s.consumers[i])
    ensures Next(s, Consume(i, SomeAnswer(s.consumers[i].pc))).Some?
  {
    if s.consumers[i].pc.Reporting? {
      ErrorsHaveRoom(s, i);
    }
    ConsumerMoves(s.n, s.g, i, s.consumers[i]);
  }

  // ------------------------------------------------------------ winding down

  lemma LifecycleWindsDown(n: nat, g: Shared, i: Index, c: Consumer, ch: Choice)
    requires g.cancelled && LifecycleStep(n, g, i, c, ch).To?
    ensures Rank(LifecycleStep(n, g, i, c, ch).c) < Rank(c)
  {
    match c.pc
    case Entering =>
    case MarkingDial =>
    case DialCheck =>
    case Dialling =>
    case DialFailed(_) =>
    case MarkingUp =>
    case LoopFailed(_) =>
    case MarkingLost =>
    case RedialCheck =>
    case Redialling =>
    case RedialFailed(_) =>
    case Exiting(_) =>
    case Reporting(_) =>
  }

  lemma ConsumeWindsDown(g: Shared, i: Index, c: Consumer, ch: Choice)
    requires g.cancelled && ConsumeStep(g, i, c, ch).To?
    ensures Rank(ConsumeStep(g, i, c, ch).c) < Rank(c)
  {
    match c.pc
    case LoopTop =>
    case Opening =>
    case Polling =>
    case Getting =>
    case Fetched(_) =>
    case Handling(_) =>
    case ReportingFailure(_, _) =>
  }

  lemma StepWindsDown(n: nat, g: Shared, i: Index, c: Consumer, ch: Choice)
    requires g.cancelled && ConsumerStep(n, g, i, c, ch).To?
    ensures Rank(ConsumerStep(n, g, i, c, ch).c) < Rank(c) && ConsumerStep(n, g, i, c, ch).g.cancelled
  {
    ConsumerAlone(n, g, i, c, ch);
    if Consuming(c.pc) {
      ConsumeWindsDown(g, i, c, ch);
    } else {
      LifecycleWindsDown(n, g, i, c, ch);
    }
  }

  /** How many of the steps are consumer i's. */
  function StepsOf(steps: seq<Step>, i: Index): nat {
    if steps == [] then 0 else One(steps[0].Consume? && steps[0].i == i) + StepsOf(steps[1..], i)
  }

  lemma CancelledStep(s: State, i: Index, step: Step)
    requires SpawnsFresh(s) && s.g.cancelled && i in s.consumers && Next(s, step).Some?
    ensures var s' := Next(s, step).value;
      && s'.g.cancelled && i in s'.consumers
      && Rank(s'.consumers[i]) + One(step.Consume? && step.i == i) <= Rank(s.consumers[i])
  {
    match step
    case Consume(j, ch) => StepWindsDown(s.n, s.g, j, s.consumers[j], ch);
    case RunStart(t) => StartEffect(s, t);
    case RunClose(_) =>
    case _ =>
  }

  lemma {:induction false} RanksFall(s: State, i: Index, steps: seq<Step>)
    requires Inv(s) && s.g.cancelled && i in s.consumers && Exec(Next, s, steps).Some?
    ensures i in Exec(Next, s, steps).value.consumers
    ensures StepsOf(steps, i) + Rank(Exec(Next, s, steps).value.consumers[i]) <= Rank(s.consumers[i])
    decreases |steps|
  {
    if steps != [] {
      HandshakeSpawnsFresh(s);
      CancelledStep(s, i, steps[0]);
      InvKept();
      RanksFall(Next(s, steps[0]).value, i, steps[1..]);
    }
  }

  lemma RankBounds(c: Consumer)
    ensures Rank(c) == 0 <==> c.pc.Finished?
    ensures Running(c) ==> Rank(c) <= 7
  {
  }

  /** Once the context has ended a running consumer takes at most seven more steps, on
      every run, whatever IBM MQ and the handlers answer; and after seven it is over. */
  lemma CancelledConsumerIsSoonOver(s: State, i: Index, steps: seq<Step>)
    requires Reachable(s) && s.g.cancelled && i in s.consumers && Running(s.consumers[i]) && Exec(Next, s, steps).Some?
    ensures StepsOf(steps, i) <= 7 && i in Exec(Next, s, steps).value.consumers
    ensures StepsOf(steps, i) == 7 ==> Exec(Next, s, steps).value.consumers[i].pc.Finished?
  {
    assert Inv(s) by { InvHolds(s); }
    RanksFall(s, i, steps);
    RankBounds(s.consumers[i]);
    RankBounds(Exec(Next, s, steps).value.consumers[i]);
  }

  // -------------------------------------------------------- Start and close return

  function StartRank(n: nat, pc: StartPc): nat {
    match pc
    case StartCalled => 0
    case Spawning(k) => if k <= n then n - k + 5 else 5
    case Joining => 4
    case Collecting => 3
    case Cancelling(_) => 2
    case Signalling(_) => 1
    case StartReturned(_) => 0
  }

  /** The context has ended, and Start call t is the one that runs. */
  ghost predicate WindsUp(s: State, t: Tid) {
    Inv(s) && s.g.cancelled && s.g.runner == Some(t)
  }

  ghost function Left(s: State, t: Tid): nat
    requires t in s.starts
  {
    Total(s.consumers, Rank) + StartRank(s.n, s.starts[t])
  }

  lemma Runner(s: State, t: Tid)
    requires WindsUp(s, t)
    ensures t in s.starts && RunnerFits(s, s.starts[t])
  {
  }

  lemma TotalDrops(cs: map<Index, Consumer>, i: Index, c: Consumer)
    requires i in cs && Rank(c) < Rank(cs[i])
    ensures Total(cs[i := c], Rank) < Total(cs, Rank)
  {
    TotalUpdate(cs, Rank, i, c);
  }

  lemma AnswerIsEnabled(s: State, i: Index)
    requires ErrorsCounted(s) && s.consumers.Keys == Indexes(s.n) && i in s.consumers && Running(s.consumers[i])
    ensures ConsumerStep(s.n, s.g, i, s.consumers[i], SomeAnswer(s.consumers[i].pc)).To?
  {
    if s.consumers[i].pc.Reporting? {
      RoomForError(s, i);
    }
    ConsumerMoves(s.n, s.g, i, s.consumers[i]);
  }

  /** A consumer of a Start that waits for its consumers. */
  lemma ConsumerGoesOn(s: State, t: Tid, i: Index, ch: Choice) returns (s': State)
    requires s.g.cancelled && i in s.consumers && ConsumerStep(s.n, s.g, i, s.consumers[i], ch).To?
    ensures Next(s, Consume(i, ch)) == Some(s')
    ensures s'.g.cancelled && s'.g.runner == s.g.runner && s'.closes == s.closes && s'.starts == s.starts && s'.n == s.n
    ensures Total(s'.consumers, Rank) < Total(s.consumers, Rank)
  {
    var m := ConsumerStep(s.n, s.g, i, s.consumers[i], ch);
    ConsumerAlone(s.n, s.g, i, s.consumers[i], ch);
    StepWindsDown(s.n, s.g, i, s.consumers[i], ch);
    s' := s.(g := m.g, consumers := s.consumers[i := m.c]);
    TotalDrops(s.consumers, i, m.c);
  }

  /** One turn of the spawning loop. */
  lemma SpawnStep(s: State, t: Tid, k: Index) returns (s': State, c: Consumer)
    requires t in s.starts && s.starts[t] == Spawning(k) && s.consumers.Keys == Indexes(s.n) && RunnerFits(s, s.starts[t])
    ensures Next(s, RunStart(t)) == Some(s')
    ensures k in s.consumers ==>
      Rank(c) < Rank(s.consumers[k]) && s' == s.(consumers := s.consumers[k := c], starts := s.starts[t := Spawning(k + 1)])
    ensures k !in s.consumers ==> s' == s.(starts := s.starts[t := Joining])
    ensures k in s.consumers <==> k < s.n
    ensures k <= s.n
  {
    s' := StartStep(s, t).value;
    c := FRESH.(pc := Entering, spawned := 1);
  }

  lemma SpawnGoesOn(s: State, t: Tid) returns (s': State)
    requires t in s.starts && s.starts[t].Spawning? && s.consumers.Keys == Indexes(s.n) && RunnerFits(s, s.starts[t])
    ensures Next(s, RunStart(t)) == Some(s')
    ensures s'.g == s.g && s'.closes == s.closes && s'.n == s.n
    ensures t in s'.starts && Left(s', t) < Left(s, t)
  {
    var k := s.starts[t].next;
    var c;
    s', c := SpawnStep(s, t, k);
    if k in s.consumers {
      TotalDrops(s.consumers, k, c);
    }
  }

  lemma StartGoesOn(s: State, t: Tid) returns (s': State)
    requires t in s.starts && !s.starts[t].Spawning? && !s.starts[t].StartCalled? && !s.starts[t].StartReturned?
    requires s.starts[t].Joining? ==> AllFinished(s.consumers)
    ensures Next(s, RunStart(t)) == Some(s')
    ensures (s.g.cancelled ==> s'.g.cancelled) && s'.g.runner == s.g.runner && s'.closes == s.closes && s'.n == s.n
    ensures t in s'.starts && Left(s', t) < Left(s, t)
  {
    s' := StartStep(s, t).value;
  }

  lemma OneNearer(s: State, t: Tid) returns (step: Step, s': State)
    requires WindsUp(s, t) && t in s.starts && RunnerFits(s, s.starts[t]) && !s.starts[t].StartReturned?
    ensures Next(s, step) == Some(s') && s'.g.cancelled && s'.g.runner == Some(t) && s'.closes == s.closes
    ensures t in s'.starts && Left(s', t) < Left(s, t)
  {
    if s.starts[t].Spawning? {
      step := RunStart(t);
      s' := SpawnGoesOn(s, t);
    } else if s.starts[t].Joining? && !AllFinished(s.consumers) {
      var i :| i in s.consumers && !s.consumers[i].pc.Finished?;
      AnswerIsEnabled(s, i);
      step := Consume(i, SomeAnswer(s.consumers[i].pc));
      s' := ConsumerGoesOn(s, t, i, step.ch);
    } else {
      step := RunStart(t);
      s' := StartGoesOn(s, t);
    }
  }

  /** The Start that runs can return. */
  lemma {:induction false} Finishes(s: State, t: Tid) returns (steps: seq<Step>, s': State)
    requires WindsUp(s, t) && t in s.starts
    ensures Along(Next, s, steps, s') && WindsUp(s', t) && s'.closes == s.closes
    ensures t in s'.starts && s'.starts[t].StartReturned? && s'.g.done
    decreases Left(s, t)
  {
    Runner(s, t);
    if s.starts[t].StartReturned? {
      return [], s;
    }
    var step, s1 := OneNearer(s, t);
    InvKept();
    OneStep(Next, s, step);
    var rest;
    rest, s' := Finishes(s1, t);
    Runs.Joined(Next, s, [step], s1, rest, s');
    steps := [step] + rest;
  }

  lemma RunKeepsInv(s: State, steps: seq<Step>, s': State)
    requires Inv(s) && Along(Next, s, steps, s')
    ensures Inv(s')
  {
    InvKept();
    ExecKeeps(Next, Inv, s, steps);
  }

  /** A Start that is called is refused at once or becomes the one that runs. */
  lemma StartDecides(s: State, t: Tid) returns (s': State)
    requires t in s.starts && s.starts[t].StartCalled?
    ensures Along(Next, s, [RunStart(t)], s') && s'.g.cancelled == s.g.cancelled && t in s'.starts
    ensures s'.starts[t].StartReturned? || s'.g.runner == Some(t)
  {
    s' := StartStep(s, t).value;
    OneStep(Next, s, RunStart(t));
  }

  lemma CalledStartReturns(s: State, t: Tid) returns (steps: seq<Step>, s': State)
    requires Inv(s) && s.g.cancelled && t in s.starts && s.starts[t].StartCalled?
    ensures Along(Next, s, steps, s') && t in s'.starts && s'.starts[t].StartReturned?
  {
    var s1 := StartDecides(s, t);
    RunKeepsInv(s, [RunStart(t)], s1);
    if s1.starts[t].StartReturned? {
      return [RunStart(t)], s1;
    }
    var rest;
    rest, s' := Finishes(s1, t);
    Runs.Joined(Next, s, [RunStart(t)], s1, rest, s');
    steps := [RunStart(t)] + rest;
  }

  /** Once the context has ended, every Start can return. */
  lemma StartCanReturn(s: State, t: Tid) returns (steps: seq<Step>, s': State)
    requires Reachable(s) && s.g.cancelled && t in s.starts
    ensures Along(Next, s, steps, s') && t in s'.starts && s'.starts[t].StartReturned?
  {
    assert Inv(s) by { InvHolds(s); }
    if s.g.runner == Some(t) {
      steps, s' := Finishes(s, t);
    } else if s.starts[t].StartReturned? {
      steps, s' := [], s;
    } else {
      steps, s' := CalledStartReturns(s, t);
    }
  }

  lemma WaitEnds(s: State, t: Tid) returns (steps: seq<Step>, s': State)
    requires Inv(s) && t in s.closes && s.closes[t].AwaitingDone?
    ensures Along(Next, s, steps, s') && t in s'.closes && s'.closes[t] == CloseReturned(true)
  {
    assert CloseFits(s, s.closes[t]);
    var s1;
    steps, s1 := Finishes(s, s.g.runner.value);
    steps, s' := Append(Next, s, steps, s1, RunClose(t));
  }

  /** A `close` returns at once or comes to its wait. */
  lemma CloseDecides(s: State, t: Tid) returns (steps: seq<Step>, s': State)
    requires t in s.closes
    ensures Along(Next, s, steps, s') && t in s'.closes && (s'.closes[t].AwaitingDone? || s'.closes[t].CloseReturned?)
  {
    steps, s' := [], s;
    if s'.closes[t].CloseCalled? {
      steps, s' := Append(Next, s, steps, s', RunClose(t));
    }
    if s'.closes[t].CloseCancelling? {
      steps, s' := Append(Next, s, steps, s', RunClose(t));
    }
  }

  /** In every reachable state a `close` can return, whatever it finds: it is never
      blocked for good. */
  lemma CloseCanReturn(s: State, t: Tid) returns (steps: seq<Step>, s': State)
    requires Reachable(s) && t in s.closes
    ensures Along(Next, s, steps, s') && t in s'.closes && s'.closes[t].CloseReturned?
  {
    assert Inv(s) by { InvHolds(s); }
    var s1;
    steps, s1 := CloseDecides(s, t);
    RunKeepsInv(s, steps, s1);
    if s1.closes[t].CloseReturned? {
      return steps, s1;
    }
    var rest;
    rest, s' := WaitEnds(s1, t);
    Runs.Joined(Next, s, steps, s1, rest, s');
    steps := steps + rest;
  }
}
