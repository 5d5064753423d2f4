/** The listener's promises, over every reachable state and every run. */
module ListenerTheorems {
  import opened Errors
  import opened ConnectionStates
  import opened Counting
  import opened Runs
  import opened ListenerProtocol

  // ------------------------------------------------------- one consumer's trace

  /** The state changes a consumer's slot may show. */
  predicate Allowed(a: ConnectionState, b: ConnectionState) {
    match a
    case Unknown => b == Reconnecting || b == Stopped
    case Reconnecting => b == Connected || b == Stopped || b == Failed
    case Connected => b == Reconnecting || b == Stopped || b == Failed
    case Stopped => false
    case Failed => false
  }

  predicate Arrow(trace: seq<ConnectionState>, i: nat) {
    i + 1 < |trace| ==> Allowed(trace[i], trace[i + 1])
  }

  ghost predicate Path(trace: seq<ConnectionState>) {
    && trace != [] && trace[0] == Unknown
    && forall i: nat {:trigger Arrow(trace, i)} :: Arrow(trace, i)
  }

  /** The state that belongs to each place in the code. */
  predicate ShowsFor(pc: ConsumerPc, st: ConnectionState) {
    match pc
    case NotSpawned => st == Unknown
    case Entering => st == Unknown
    case MarkingDial => st == Unknown
    case DialCheck => st == Reconnecting
    case Dialling => st == Reconnecting
    case DialFailed(_) => st == Reconnecting
    case MarkingUp => st == Reconnecting
    case RedialCheck => st == Reconnecting
    case Redialling => st == Reconnecting
    case RedialFailed(_) => st == Reconnecting
    case Exiting(r) => st == Reconnecting || st == Connected || (st == Unknown && r.None?)
    case Reporting(r) => st == if r.Some? then Failed else Stopped
    case Finished(r) => st == if r.Some? then Failed else Stopped
    case _ => st == Connected
  }

  ghost predicate Sound(c: Consumer) {
    Path(c.trace) && ShowsFor(c.pc, Shown(c))
  }

  lemma MarkedIsSound(c: Consumer, pc: ConsumerPc, st: ConnectionState)
    requires Path(c.trace) && Allowed(Shown(c), st) && ShowsFor(pc, st)
    ensures Sound(Marked(c, pc, st))
  {
    forall i: nat ensures Arrow(c.trace + [st], i) {
      assert Arrow(c.trace, i);
    }
  }

  lemma ConsumeIsSound(g: Shared, i: Index, c: Consumer, ch: Choice)
    requires Sound(c) && Consuming(c.pc) && ConsumeStep(g, i, c, ch).To?
    ensures Sound(ConsumeStep(g, i, c, ch).c)
  {
    var c' := ConsumeStep(g, i, c, ch).c;
    assert c'.trace == c.trace && Shown(c) == Connected;
  }

  predicate Marking(pc: ConsumerPc) {
    pc.MarkingDial? || pc.MarkingUp? || pc.MarkingLost? || pc.Exiting?
  }

  lemma LifecycleIsSound(n: nat, g: Shared, i: Index, c: Consumer, ch: Choice)
    requires Sound(c) && !Marking(c.pc) && LifecycleStep(n, g, i, c, ch).To?
    ensures Sound(LifecycleStep(n, g, i, c, ch).c)
  {
    var c' := LifecycleStep(n, g, i, c, ch).c;
    assert c'.trace == c.trace;
    match c.pc
    case Entering =>
    case DialCheck =>
    case Dialling =>
    case DialFailed(_) =>
    case LoopFailed(_) =>
    case RedialCheck =>
    case Redialling =>
    case RedialFailed(_) =>
    case Reporting(_) =>
  }

  lemma StepIsSound(n: nat, g: Shared, i: Index, c: Consumer, ch: Choice)
    requires Sound(c) && ConsumerStep(n, g, i, c, ch).To?
    ensures Sound(ConsumerStep(n, g, i, c, ch).c)
  {
    match c.pc
    case MarkingDial => MarkedIsSound(c, DialCheck, Reconnecting);
    case MarkingUp => MarkedIsSound(c, LoopTop, Connected);
    case MarkingLost => MarkedIsSound(c, RedialCheck, Reconnecting);
    case Exiting(r) => MarkedIsSound(c, Reporting(r), if r.Some? then Failed else Stopped);
    case _ =>
      if Consuming(c.pc) {
        ConsumeIsSound(g, i, c, ch);
      } else {
        LifecycleIsSound(n, g, i, c, ch);
      }
  }

  // ----------------------------------------------------------------- handshake

  predicate Idle(c: Consumer) {
    c == FRESH
  }

  predicate Spawned(c: Consumer) {
    c.spawned == 1 && !c.pc.NotSpawned?
  }

  /** How far the one Start that got through has come with its consumers. */
  ghost predicate RunnerFits(s: State, pc: StartPc) {
    match pc
    case StartCalled => false
    case Spawning(k) =>
      && k <= s.n && !s.g.done
      && (forall i :: i in s.consumers ==> if i < k then Spawned(s.consumers[i]) else Idle(s.consumers[i]))
    case Joining => !s.g.done && AllSpawned(s)
    case Collecting => !s.g.done && AllSpawned(s) && AllFinished(s.consumers)
    case Cancelling(es) => !s.g.done && AllSpawned(s) && AllFinished(s.consumers) && es == s.g.errs
    case Signalling(es) => !s.g.done && AllSpawned(s) && AllFinished(s.consumers) && es == s.g.errs && s.g.cancelled
    case StartReturned(r) => s.g.done && AllSpawned(s) && AllFinished(s.consumers) && r == Joined(s.g.errs) && s.g.cancelled
  }

  ghost predicate AllSpawned(s: State) {
    forall i :: i in s.consumers ==> Spawned(s.consumers[i])
  }

  ghost predicate CloseFits(s: State, pc: ClosePc) {
    match pc
    case CloseCalled => true
    case CloseCancelling => s.g.closed && s.g.started
    case AwaitingDone => s.g.closed && s.g.started && s.g.cancelled
    case CloseReturned(first) => s.g.closed && (first ==> !s.g.started || s.g.done)
  }

  ghost predicate Handshake(s: State) {
    && s.consumers.Keys == Indexes(s.n)
    && (s.g.started <==> s.g.runner.Some?)
    && (!s.g.started ==> !s.g.done && forall i :: i in s.consumers ==> Idle(s.consumers[i]))
    && (s.g.started ==> s.g.runner.value in s.starts && RunnerFits(s, s.starts[s.g.runner.value]))
    && (forall t :: t in s.starts && s.g.runner != Some(t) ==>
          s.starts[t] == StartCalled || s.starts[t] == StartReturned(ClientIsClosed) || s.starts[t] == StartReturned(StartedTwice))
    && (forall t :: t in s.starts && s.starts[t] == StartReturned(ClientIsClosed) ==> s.g.closed)
    && (forall t :: t in s.starts && s.starts[t] == StartReturned(StartedTwice) ==> s.g.started)
    && (forall t :: t in s.closes ==> CloseFits(s, s.closes[t]))
  }

  /** A step leaves the handshake alone. */
  predicate Aside(g: Shared, g': Shared) {
    g'.started == g.started && g'.closed == g.closed && g'.done == g.done && g'.runner == g.runner && g'.cancelled == g.cancelled
  }

  lemma ConsumeAlone(g: Shared, i: Index, c: Consumer, ch: Choice)
    requires ConsumeStep(g, i, c, ch).To?
    ensures var To(g', c') := ConsumeStep(g, i, c, ch); Aside(g, g') && c'.spawned == c.spawned && !c'.pc.NotSpawned?
  {
  }

  lemma LifecycleAlone(n: nat, g: Shared, i: Index, c: Consumer, ch: Choice)
    requires LifecycleStep(n, g, i, c, ch).To?
    ensures var To(g', c') := LifecycleStep(n, g, i, c, ch); Aside(g, g') && c'.spawned == c.spawned && !c'.pc.NotSpawned?
    ensures !c.pc.NotSpawned? && !c.pc.Finished?
  {
  }

  /** A consumer's step keeps its place among the consumers: it was spawned before,
      and it neither restarts nor touches the handshake. */
  lemma ConsumerAlone(n: nat, g: Shared, i: Index, c: Consumer, ch: Choice)
    requires ConsumerStep(n, g, i, c, ch).To?
    ensures var To(g', c') := ConsumerStep(n, g, i, c, ch);
      && !c.pc.NotSpawned? && !c.pc.Finished? && c'.spawned == c.spawned && !c'.pc.NotSpawned? && Aside(g, g')
  {
    if Consuming(c.pc) {
      ConsumeAlone(g, i, c, ch);
    } else {
      LifecycleAlone(n, g, i, c, ch);
    }
  }

  lemma ConsumeKeepsHandshake(s: State, i: Index, ch: Choice)
    requires Handshake(s) && Next(s, Consume(i, ch)).Some?
    ensures Handshake(Next(s, Consume(i, ch)).value)
  {
    ConsumerAlone(s.n, s.g, i, s.consumers[i], ch);
    var s' := Next(s, Consume(i, ch)).value;
    if s.g.started {
      assert RunnerFits(s', s'.starts[s'.g.runner.value]);
    }
    forall t | t in s'.closes ensures CloseFits(s', s'.closes[t]) {
      assert CloseFits(s, s.closes[t]);
    }
  }

  lemma SpawnKeepsHandshake(s: State, t: Tid)
    requires Handshake(s) && Next(s, RunStart(t)).Some? && s.starts[t].Spawning?
    ensures Handshake(Next(s, RunStart(t)).value)
  {
    var s' := Next(s, RunStart(t)).value;
    var k := s.starts[t].next;
    assert RunnerFits(s, s.starts[t]);
    assert k in s.consumers <==> k < s.n;
    assert RunnerFits(s', s'.starts[t]);
    forall u | u in s'.closes ensures CloseFits(s', s'.closes[u]) {
      assert CloseFits(s, s.closes[u]);
    }
  }

  lemma EnterKeepsHandshake(s: State, t: Tid)
    requires Handshake(s) && Next(s, RunStart(t)).Some? && s.starts[t].StartCalled?
    ensures Handshake(Next(s, RunStart(t)).value)
  {
    var s' := Next(s, RunStart(t)).value;
    if s.g.started {
      assert RunnerFits(s', s'.starts[s'.g.runner.value]);
    }
    forall u | u in s'.closes ensures CloseFits(s', s'.closes[u]) {
      assert CloseFits(s, s.closes[u]);
    }
  }

  lemma LeaveKeepsHandshake(s: State, t: Tid)
    requires Handshake(s) && Next(s, RunStart(t)).Some? && !s.starts[t].Spawning? && !s.starts[t].StartCalled?
    ensures Handshake(Next(s, RunStart(t)).value)
  {
    var s' := Next(s, RunStart(t)).value;
    assert s.g.runner == Some(t);
    assert RunnerFits(s', s'.starts[t]) by {
      assert RunnerFits(s, s.starts[t]);
    }
    forall u | u in s'.closes ensures CloseFits(s', s'.closes[u]) {
      assert CloseFits(s, s.closes[u]);
    }
  }

  /** The runner's facts do not mention the close calls or the context. */
  lemma RunnerUndisturbed(s: State, s': State, pc: StartPc)
    requires RunnerFits(s, pc)
    requires s'.n == s.n && s'.consumers == s.consumers && s'.g.done == s.g.done && s'.g.errs == s.g.errs
    requires s.g.cancelled ==> s'.g.cancelled
    ensures RunnerFits(s', pc)
  {
  }

  /** A close call's facts survive another's step. */
  lemma CloseUndisturbed(s: State, s': State, pc: ClosePc)
    requires CloseFits(s, pc)
    requires s'.g.started == s.g.started && s'.g.done == s.g.done
    requires (s.g.closed ==> s'.g.closed) && (s.g.cancelled ==> s'.g.cancelled)
    ensures CloseFits(s', pc)
  {
  }

  /** What a step of close call t changes. */
  lemma CloseEffect(s: State, t: Tid)
    requires t in s.closes && CloseStep(s, t).Some? && CloseFits(s, s.closes[t])
    ensures var s' := CloseStep(s, t).value;
      && s'.n == s.n && s'.consumers == s.consumers && s'.starts == s.starts
      && s'.g == s.g.(closed := s'.g.closed, cancelled := s'.g.cancelled)
      && (s.g.closed ==> s'.g.closed) && (s.g.cancelled ==> s'.g.cancelled)
      && t in s'.closes && s'.closes == s.closes[t := s'.closes[t]] && CloseFits(s', s'.closes[t])
  {
    match s.closes[t]
    case CloseCalled =>
    case CloseCancelling =>
    case AwaitingDone =>
  }

  lemma CloseKeepsHandshake(s: State, t: Tid)
    requires Handshake(s) && Next(s, RunClose(t)).Some?
    ensures Handshake(Next(s, RunClose(t)).value)
  {
    var s' := Next(s, RunClose(t)).value;
    CloseEffect(s, t);
    if s.g.started {
      RunnerUndisturbed(s, s', s.starts[s.g.runner.value]);
    }
    forall u | u in s'.closes ensures CloseFits(s', s'.closes[u]) {
      if u != t {
        CloseUndisturbed(s, s', s.closes[u]);
      }
    }
  }

  lemma OtherKeepsHandshake(s: State, step: Step)
    requires Handshake(s) && (step.CallStart? || step.CallClose? || step.CancelCtx? || step.PutMessage?) && Next(s, step).Some?
    ensures Handshake(Next(s, step).value)
  {
    var s' := Next(s, step).value;
    if s.g.started {
      RunnerUndisturbed(s, s', s.starts[s.g.runner.value]);
    }
    forall u | u in s'.closes ensures CloseFits(s', s'.closes[u]) {
      assert u in s.closes ==> CloseFits(s, s.closes[u]);
    }
  }

  /** The consumer about to be spawned is untouched. */
  ghost predicate SpawnsFresh(s: State) {
    forall t :: t in s.starts && s.starts[t].Spawning? && s.starts[t].next in s.consumers ==>
      Idle(s.consumers[s.starts[t].next])
  }

  lemma HandshakeSpawnsFresh(s: State)
    requires Handshake(s)
    ensures SpawnsFresh(s)
  {
    forall t | t in s.starts && s.starts[t].Spawning? && s.starts[t].next in s.consumers
      ensures Idle(s.consumers[s.starts[t].next])
    {
      assert RunnerFits(s, s.starts[t]);
    }
  }

  // ------------------------------------------------------------- error channel

  /** The consumer has put its error on the channel. */
  predicate Sent(c: Consumer) {
    c.pc.Finished? && c.pc.result.Some?
  }

  ghost predicate ErrorsCounted(s: State) {
    && |s.g.errs| == |Where(s.consumers, Sent)|
    && (forall k :: 0 <= k < |s.g.errs| ==> s.g.errs[k] in s.consumers && Sent(s.consumers[s.g.errs[k]]))
    && (forall j, k :: 0 <= j < k < |s.g.errs| ==> s.g.errs[j] != s.g.errs[k])
  }

  /** A move puts the consumer's error on the channel exactly as it finishes with one. */
  ghost predicate ErrorMove(g: Shared, i: Index, m: Move) {
    m.To? ==> m.g.errs == if Sent(m.c) then g.errs + [i] else g.errs
  }

  lemma ConsumeErrors(g: Shared, i: Index, c: Consumer, ch: Choice)
    ensures ErrorMove(g, i, ConsumeStep(g, i, c, ch))
  {
  }

  lemma LifecycleErrors(n: nat, g: Shared, i: Index, c: Consumer, ch: Choice)
    ensures ErrorMove(g, i, LifecycleStep(n, g, i, c, ch))
    ensures Sent(c) ==> LifecycleStep(n, g, i, c, ch).Blocked?
  {
    match c.pc
    case Reporting(_) =>
    case _ =>
  }

  lemma ErrorEffect(n: nat, g: Shared, i: Index, c: Consumer, ch: Choice)
    requires ConsumerStep(n, g, i, c, ch).To?
    ensures !Sent(c) && ErrorMove(g, i, ConsumerStep(n, g, i, c, ch))
  {
    if Consuming(c.pc) {
      ConsumeErrors(g, i, c, ch);
    } else {
      LifecycleErrors(n, g, i, c, ch);
    }
  }

  lemma ErrorsCountedAfter(s: State, s': State, i: Index, c': Consumer)
    requires ErrorsCounted(s) && i in s.consumers && !Sent(s.consumers[i])
    requires s'.consumers == s.consumers[i := c']
    requires if Sent(c') then s'.g.errs == s.g.errs + [i] else s'.g.errs == s.g.errs
    ensures ErrorsCounted(s')
  {
    WhereUpdate(s.consumers, i, c', Sent);
  }

  lemma ConsumeKeepsErrors(s: State, i: Index, ch: Choice)
    requires ErrorsCounted(s) && Next(s, Consume(i, ch)).Some?
    ensures ErrorsCounted(Next(s, Consume(i, ch)).value)
  {
    var s' := Next(s, Consume(i, ch)).value;
    ErrorEffect(s.n, s.g, i, s.consumers[i], ch);
    ErrorsCountedAfter(s, s', i, ConsumerStep(s.n, s.g, i, s.consumers[i], ch).c);
  }

  lemma StartKeepsErrors(s: State, t: Tid)
    requires SpawnsFresh(s) && ErrorsCounted(s) && t in s.starts && StartStep(s, t).Some?
    ensures ErrorsCounted(StartStep(s, t).value)
  {
    StartEffect(s, t);
    if s.starts[t].Spawning? && s.starts[t].next in s.consumers {
      var i := s.starts[t].next;
      assert Idle(s.consumers[i]);
      ErrorsCountedAfter(s, StartStep(s, t).value, i, s.consumers[i].(pc := Entering, spawned := s.consumers[i].spawned + 1));
    }
  }

  // ------------------------------------------------------------------ messages

  /** The consumer has a message whose handler is not over. */
  predicate Busy(c: Consumer) {
    c.pc.Fetched? || c.pc.Handling?
  }

  predicate HasFetched(c: Consumer) {
    c.pc.Fetched?
  }

  predicate Handles(c: Consumer) {
    c.pc.Handling?
  }

  /** The message consumer i is concerned with, and the place that says so. */
  function Claim(pc: ConsumerPc, i: Index): Option<(Msg, Place)> {
    match pc
    case Fetched(m) => Some((m, InHand(i)))
    case Handling(m) => Some((m, InHandler(i)))
    case ReportingFailure(m, e) => Some((m, Owing(i, e)))
    case _ => None
  }

  predicate Claimed(p: Place) {
    p.InHand? || p.InHandler? || p.Owing?
  }

  predicate Is(place: map<Msg, Place>, m: Msg, p: Place) {
    m in place && place[m] == p
  }

  predicate HandlerOver(place: map<Msg, Place>, m: Msg) {
    m in place && (place[m].Owing? || place[m].Done?)
  }

  predicate HandlerCalled(place: map<Msg, Place>, m: Msg) {
    m in place && (place[m].InHandler? || place[m].Owing? || place[m].Done?)
  }

  predicate FailureReported(place: map<Msg, Place>, m: Msg) {
    m in place && place[m].Done? && place[m].result.Some?
  }

  /** Queue, records, handler calls and error reports agree on where each message is. */
  ghost predicate Placed(b: Mail) {
    && (forall m :: m in b.queue <==> Is(b.place, m, Queued))
    && (forall m :: m in b.finished <==> HandlerOver(b.place, m))
    && (forall m :: m in b.lost <==> Is(b.place, m, Lost))
    && (forall m :: b.invoked[m] == One(HandlerCalled(b.place, m)))
    && (forall m :: b.reported[m] == One(FailureReported(b.place, m)))
  }

  /** And so do the consumers. */
  ghost predicate Claims(place: map<Msg, Place>, cs: map<Index, Consumer>) {
    && (forall i :: i in cs && Claim(cs[i].pc, i).Some? ==> Is(place, Claim(cs[i].pc, i).value.0, Claim(cs[i].pc, i).value.1))
    && (forall m :: m in place && Claimed(place[m]) ==>
          place[m].i in cs && Claim(cs[place[m].i].pc, place[m].i) == Some((m, place[m])))
  }

  /** Messages accounted for outside the consumers, minus messages ever put. */
  function Balance(b: Mail): int {
    |b.queue| + |b.finished| + |b.lost| - |b.place|
  }

  ghost predicate Conserved(b: Mail, cs: map<Index, Consumer>) {
    && Placed(b)
    && Claims(b.place, cs)
    && Balance(b) + |Where(cs, Busy)| == 0
  }

  lemma ObtainPlaced(b: Mail, m: Msg, i: Index)
    requires Placed(b) && m in b.queue
    ensures Placed(Obtain(b, m, i)) && Balance(Obtain(b, m, i)) == Balance(b) - 1
  {
    assert |b.queue - {m}| == |b.queue| - 1;
    assert b.place[m := InHand(i)].Keys == b.place.Keys;
  }

  lemma MislayPlaced(b: Mail, m: Msg)
    requires Placed(b) && m in b.queue
    ensures Placed(Mislay(b, m)) && Balance(Mislay(b, m)) == Balance(b)
  {
    assert |b.queue - {m}| == |b.queue| - 1;
    assert m !in b.lost;
    assert b.place[m := Lost].Keys == b.place.Keys;
  }

  lemma InvokePlaced(b: Mail, m: Msg, i: Index)
    requires Placed(b) && Is(b.place, m, InHand(i))
    ensures Placed(Invoke(b, m, i)) && Balance(Invoke(b, m, i)) == Balance(b)
  {
    assert b.place[m := InHandler(i)].Keys == b.place.Keys;
  }

  lemma ConcludePlaced(b: Mail, m: Msg, i: Index, r: Option<Error>)
    requires Placed(b) && Is(b.place, m, InHandler(i))
    ensures Placed(Conclude(b, m, i, r)) && Balance(Conclude(b, m, i, r)) == Balance(b) + 1
  {
    assert m !in b.finished;
    assert Conclude(b, m, i, r).place.Keys == b.place.Keys;
  }

  lemma ReportPlaced(b: Mail, m: Msg, i: Index, e: Error)
    requires Placed(b) && Is(b.place, m, Owing(i, e))
    ensures Placed(Report(b, m, e)) && Balance(Report(b, m, e)) == Balance(b)
  {
    assert b.place[m := Done(Some(e))].Keys == b.place.Keys;
  }

  lemma DepositPlaced(b: Mail, m: Msg)
    requires Placed(b) && m !in b.place
    ensures Placed(Deposit(b, m)) && Balance(Deposit(b, m)) == Balance(b)
  {
    assert m !in b.queue;
    assert b.place[m := Queued].Keys == b.place.Keys + {m};
  }

  /** Message m moves to place p and consumer i with it. */
  lemma ClaimMoves(place: map<Msg, Place>, cs: map<Index, Consumer>, i: Index, c: Consumer, m: Msg, p: Place)
    requires Claims(place, cs) && i in cs && m in place
    requires if Claimed(place[m]) then Claim(cs[i].pc, i) == Some((m, place[m])) else Claim(cs[i].pc, i).None?
    requires if Claimed(p) then Claim(c.pc, i) == Some((m, p)) else Claim(c.pc, i).None?
    ensures Claims(place[m := p], cs[i := c])
  {
  }

  lemma GetKeepsMessages(b: Mail, cs: map<Index, Consumer>, i: Index, c: Consumer, m: Msg)
    requires Conserved(b, cs) && m in b.queue && i in cs && cs[i].pc.Getting? && c.pc == Fetched(m)
    ensures Conserved(Obtain(b, m, i), cs[i := c])
  {
    assert Is(b.place, m, Queued);
    ObtainPlaced(b, m, i);
    ClaimMoves(b.place, cs, i, c, m, InHand(i));
    WhereUpdate(cs, i, c, Busy);
  }

  lemma LossKeepsMessages(b: Mail, cs: map<Index, Consumer>, i: Index, c: Consumer, m: Msg)
    requires Conserved(b, cs) && m in b.queue && i in cs && cs[i].pc.Getting? && Claim(c.pc, i).None?
    ensures Conserved(Mislay(b, m), cs[i := c])
  {
    assert Is(b.place, m, Queued);
    MislayPlaced(b, m);
    ClaimMoves(b.place, cs, i, c, m, Lost);
    WhereUpdate(cs, i, c, Busy);
  }

  lemma InvokeKeepsMessages(b: Mail, cs: map<Index, Consumer>, i: Index, c: Consumer)
    requires Conserved(b, cs) && i in cs && cs[i].pc.Fetched? && c.pc == Handling(cs[i].pc.msg)
    ensures Conserved(Invoke(b, cs[i].pc.msg, i), cs[i := c])
  {
    InvokePlaced(b, cs[i].pc.msg, i);
    ClaimMoves(b.place, cs, i, c, cs[i].pc.msg, InHandler(i));
    WhereUpdate(cs, i, c, Busy);
  }

  lemma HandlerKeepsMessages(b: Mail, cs: map<Index, Consumer>, i: Index, c: Consumer, r: Option<Error>)
    requires Conserved(b, cs) && i in cs && cs[i].pc.Handling?
    requires c.pc == if r.Some? then ReportingFailure(cs[i].pc.msg, r.value) else Polling
    ensures Conserved(Conclude(b, cs[i].pc.msg, i, r), cs[i := c])
  {
    ConcludePlaced(b, cs[i].pc.msg, i, r);
    ClaimMoves(b.place, cs, i, c, cs[i].pc.msg, if r.Some? then Owing(i, r.value) else Done(None));
    WhereUpdate(cs, i, c, Busy);
  }

  lemma ReportKeepsMessages(b: Mail, cs: map<Index, Consumer>, i: Index, c: Consumer)
    requires Conserved(b, cs) && i in cs && cs[i].pc.ReportingFailure? && c.pc.Polling?
    ensures Conserved(Report(b, cs[i].pc.msg, cs[i].pc.err), cs[i := c])
  {
    ReportPlaced(b, cs[i].pc.msg, i, cs[i].pc.err);
    ClaimMoves(b.place, cs, i, c, cs[i].pc.msg, Done(Some(cs[i].pc.err)));
    WhereUpdate(cs, i, c, Busy);
  }

  /** A consumer that has no message before or after leaves the messages alone. */
  lemma QuietKeepsMessages(b: Mail, cs: map<Index, Consumer>, i: Index, c: Consumer)
    requires Conserved(b, cs) && i in cs && Claim(cs[i].pc, i).None? && Claim(c.pc, i).None?
    ensures Conserved(b, cs[i := c])
  {
    WhereUpdate(cs, i, c, Busy);
  }

  /** A move that leaves the messages and the consumer without one. */
  ghost predicate QuietMove(g: Shared, i: Index, m: Move) {
    m.To? ==> Claim(m.c.pc, i).None? && m.g.mail == g.mail
  }

  lemma QuietLifecycle(n: nat, g: Shared, i: Index, c: Consumer, ch: Choice)
    ensures QuietMove(g, i, LifecycleStep(n, g, i, c, ch))
  {
  }

  lemma QuietConsume(g: Shared, i: Index, c: Consumer, ch: Choice)
    requires !c.pc.Getting? && Claim(c.pc, i).None?
    ensures QuietMove(g, i, ConsumeStep(g, i, c, ch))
  {
  }

  lemma QuietConsumer(n: nat, g: Shared, i: Index, c: Consumer, ch: Choice)
    requires !c.pc.Getting? && Claim(c.pc, i).None?
    ensures QuietMove(g, i, ConsumerStep(n, g, i, c, ch))
  {
    if Consuming(c.pc) {
      QuietConsume(g, i, c, ch);
    } else {
      QuietLifecycle(n, g, i, c, ch);
    }
  }

  /** What the handler returned, when it is over. */
  function ResultOf(ch: Choice): Option<Error> {
    match ch
    case HandlerErr(e) => Some(e)
    case HandlerPanics => Some(PANIC)
    case _ => None
  }

  /** What each step of consumeLoop does to the messages. */
  ghost predicate MailMove(b: Mail, i: Index, pc: ConsumerPc, ch: Choice, b': Mail, pc': ConsumerPc) {
    match pc
    case Getting =>
      if ch.Get? then ch.msg in b.queue && b' == Obtain(b, ch.msg, i) && pc' == Fetched(ch.msg)
      else if ch.GetLost? then ch.msg in b.queue && b' == Mislay(b, ch.msg) && Claim(pc', i).None?
      else b' == b && Claim(pc', i).None?
    case Fetched(m) => b' == Invoke(b, m, i) && pc' == Handling(m)
    case Handling(m) =>
      && b' == Conclude(b, m, i, ResultOf(ch))
      && pc' == if ResultOf(ch).Some? then ReportingFailure(m, ResultOf(ch).value) else Polling
    case ReportingFailure(m, e) => b' == Report(b, m, e) && pc' == Polling
    case _ => b' == b && Claim(pc', i).None?
  }

  lemma MailMovesInLoop(g: Shared, i: Index, c: Consumer, ch: Choice)
    requires c.pc.Getting? || Claim(c.pc, i).Some?
    requires ConsumeStep(g, i, c, ch).To?
    ensures var To(g', c') := ConsumeStep(g, i, c, ch); MailMove(g.mail, i, c.pc, ch, g'.mail, c'.pc)
  {
    match c.pc
    case Getting =>
    case Fetched(_) =>
    case Handling(_) =>
    case ReportingFailure(_, _) =>
  }

  lemma MailMoves(n: nat, g: Shared, i: Index, c: Consumer, ch: Choice)
    requires ConsumerStep(n, g, i, c, ch).To?
    ensures var To(g', c') := ConsumerStep(n, g, i, c, ch); MailMove(g.mail, i, c.pc, ch, g'.mail, c'.pc)
  {
    if c.pc.Getting? || Claim(c.pc, i).Some? {
      MailMovesInLoop(g, i, c, ch);
    } else {
      QuietConsumer(n, g, i, c, ch);
    }
  }

  lemma MoveKeepsMessages(b: Mail, cs: map<Index, Consumer>, i: Index, ch: Choice, b': Mail, c': Consumer)
    requires Conserved(b, cs) && i in cs && MailMove(b, i, cs[i].pc, ch, b', c'.pc)
    ensures Conserved(b', cs[i := c'])
  {
    match cs[i].pc
    case Getting =>
      if ch.Get? {
        GetKeepsMessages(b, cs, i, c', ch.msg);
      } else if ch.GetLost? {
        LossKeepsMessages(b, cs, i, c', ch.msg);
      } else {
        QuietKeepsMessages(b, cs, i, c');
      }
    case Fetched(_) => InvokeKeepsMessages(b, cs, i, c');
    case Handling(_) => HandlerKeepsMessages(b, cs, i, c', ResultOf(ch));
    case ReportingFailure(_, _) => ReportKeepsMessages(b, cs, i, c');
    case _ => QuietKeepsMessages(b, cs, i, c');
  }

  lemma ConsumeKeepsMessages(s: State, i: Index, ch: Choice)
    requires Conserved(s.g.mail, s.consumers) && Next(s, Consume(i, ch)).Some?
    ensures var s' := Next(s, Consume(i, ch)).value; Conserved(s'.g.mail, s'.consumers)
  {
    MailMoves(s.n, s.g, i, s.consumers[i], ch);
    var m := ConsumerStep(s.n, s.g, i, s.consumers[i], ch);
    MoveKeepsMessages(s.g.mail, s.consumers, i, ch, m.g.mail, m.c);
  }

  lemma PutKeepsMessages(b: Mail, cs: map<Index, Consumer>, m: Msg)
    requires Conserved(b, cs) && m !in b.place
    ensures Conserved(Deposit(b, m), cs)
  {
    DepositPlaced(b, m);
  }

  /** A Start touches no message, and no consumer but the one it spawns. */
  lemma StartEffect(s: State, t: Tid)
    requires t in s.starts && StartStep(s, t).Some?
    ensures var s' := StartStep(s, t).value;
      && s'.g.mail == s.g.mail && s'.g.errs == s.g.errs
      && s'.consumers ==
           if s.starts[t].Spawning? && s.starts[t].next in s.consumers then
             var c := s.consumers[s.starts[t].next];
             s.consumers[s.starts[t].next := c.(pc := Entering, spawned := c.spawned + 1)]
           else s.consumers
  {
  }

  lemma SpawnKeepsMessages(s: State, t: Tid)
    requires SpawnsFresh(s) && Conserved(s.g.mail, s.consumers) && t in s.starts && StartStep(s, t).Some?
    ensures var s' := StartStep(s, t).value; Conserved(s'.g.mail, s'.consumers)
  {
    StartEffect(s, t);
    if s.starts[t].Spawning? && s.starts[t].next in s.consumers {
      var i := s.starts[t].next;
      assert Idle(s.consumers[i]);
      QuietKeepsMessages(s.g.mail, s.consumers, i, s.consumers[i].(pc := Entering, spawned := s.consumers[i].spawned + 1));
    }
  }

  // ----------------------------------------------------------- the whole state

  ghost predicate AllSound(s: State) {
    forall i :: i in s.consumers ==> Sound(s.consumers[i])
  }

  ghost predicate Inv(s: State) {
    Handshake(s) && AllSound(s) && ErrorsCounted(s) && Conserved(s.g.mail, s.consumers)
  }

  lemma NextKeepsHandshake(s: State, step: Step)
    requires Handshake(s) && Next(s, step).Some?
    ensures Handshake(Next(s, step).value)
  {
    match step
    case Consume(i, ch) => ConsumeKeepsHandshake(s, i, ch);
    case RunStart(t) =>
      if s.starts[t].StartCalled? {
        EnterKeepsHandshake(s, t);
      } else if s.starts[t].Spawning? {
        SpawnKeepsHandshake(s, t);
      } else {
        LeaveKeepsHandshake(s, t);
      }
    case RunClose(t) => CloseKeepsHandshake(s, t);
    case _ => OtherKeepsHandshake(s, step);
  }

  lemma NextKeepsSound(s: State, step: Step)
    requires SpawnsFresh(s) && AllSound(s) && Next(s, step).Some?
    ensures AllSound(Next(s, step).value)
  {
    if step.Consume? {
      StepIsSound(s.n, s.g, step.i, s.consumers[step.i], step.ch);
    } else if step.RunStart? && s.starts[step.t].Spawning? && s.starts[step.t].next in s.consumers {
      assert Idle(s.consumers[s.starts[step.t].next]);
    }
  }

  lemma NextKeepsErrors(s: State, step: Step)
    requires SpawnsFresh(s) && ErrorsCounted(s) && Next(s, step).Some?
    ensures ErrorsCounted(Next(s, step).value)
  {
    match step
    case Consume(i, ch) => ConsumeKeepsErrors(s, i, ch);
    case RunStart(t) => StartKeepsErrors(s, t);
    case _ =>
  }

  lemma NextKeepsMessages(s: State, step: Step)
    requires SpawnsFresh(s) && Conserved(s.g.mail, s.consumers) && Next(s, step).Some?
    ensures var s' := Next(s, step).value; Conserved(s'.g.mail, s'.consumers)
  {
    match step
    case Consume(i, ch) => ConsumeKeepsMessages(s, i, ch);
    case RunStart(t) => SpawnKeepsMessages(s, t);
    case PutMessage(m) => PutKeepsMessages(s.g.mail, s.consumers, m);
    case _ =>
  }

  lemma InitHandshake(n: nat)
    ensures Handshake(Init(n))
  {
    assert Init(n).consumers.Keys == Indexes(n);
  }

  lemma InitConserved(n: nat)
    ensures ErrorsCounted(Init(n)) && Conserved(Init(n).g.mail, Init(n).consumers)
  {
    assert Where(Init(n).consumers, Sent) == {};
    assert Where(Init(n).consumers, Busy) == {};
  }

  lemma InitSound(n: nat)
    ensures AllSound(Init(n))
  {
    assert Sound(FRESH) by {
      assert forall i: nat :: Arrow(FRESH.trace, i);
    }
  }

  lemma InitHolds(n: nat)
    ensures Inv(Init(n))
  {
    InitHandshake(n);
    InitConserved(n);
    InitSound(n);
  }

  lemma InvKept()
    ensures Keeps(Next, Inv)
  {
    forall s, step | Inv(s) && Next(s, step).Some?
      ensures Inv(Next(s, step).value)
    {
      NextKeepsHandshake(s, step);
      HandshakeSpawnsFresh(s);
      NextKeepsSound(s, step);
      NextKeepsErrors(s, step);
      NextKeepsMessages(s, step);
    }
  }

  lemma InvHolds(s: State)
    requires Reachable(s)
    ensures Inv(s)
  {
    var n: nat :| n >= 1 && Reaches(Next, Init(n), s);
    InitHolds(n);
    InvKept();
    ReachesKeeps(Next, Inv, Init(n), s);
  }

  lemma SoundHolds(s: State)
    requires Reachable(s)
    ensures AllSound(s)
  {
    InvHolds(s);
  }

  lemma ErrorsHold(s: State)
    requires Reachable(s)
    ensures ErrorsCounted(s) && s.consumers.Keys == Indexes(s.n)
  {
    InvHolds(s);
  }

  lemma ConservedHolds(s: State)
    requires Reachable(s)
    ensures Conserved(s.g.mail, s.consumers)
  {
    InvHolds(s);
  }

  /** A Start that returned its joined errors found every consumer finished. */
  lemma JoinedHolds(s: State, t: Tid)
    requires Reachable(s) && t in s.starts && s.starts[t].StartReturned? && s.starts[t].result.Joined?
    ensures AllFinished(s.consumers) && s.starts[t].result.errs == s.g.errs && s.g.cancelled
  {
    InvHolds(s);
    assert RunnerFits(s, s.starts[t]);
  }

  // ------------------------------------------------------------------ theorems

  /** A consumer's state moves only along the allowed arrows, and Stopped and Failed
      are final. */
  lemma StatesFollowArrows(s: State, i: Index)
    requires Reachable(s) && i in s.consumers
    ensures Path(s.consumers[i].trace)
    ensures forall k :: 0 <= k < |s.consumers[i].trace| - 1 ==>
              s.consumers[i].trace[k] != Stopped && s.consumers[i].trace[k] != Failed
  {
    SoundHolds(s);
    var trace := s.consumers[i].trace;
    forall k | 0 <= k < |trace| - 1
      ensures trace[k] != Stopped && trace[k] != Failed
    {
      assert Arrow(trace, k);
    }
  }

  lemma RoomForError(s: State, i: Index)
    requires ErrorsCounted(s) && s.consumers.Keys == Indexes(s.n) && i in s.consumers && !Sent(s.consumers[i])
    ensures |s.g.errs| < s.n
  {
    SubsetCard(Where(s.consumers, Sent), Indexes(s.n) - {i});
  }

  /** No consumer ever blocks on the error channel. */
  lemma ErrorSendNeverBlocks(s: State, i: Index, ch: Choice)
    requires Reachable(s) && i in s.consumers && s.consumers[i].pc.Reporting?
    ensures Next(s, Consume(i, ch)).Some?
  {
    ErrorsHaveRoom(s, i);
  }

  lemma ErrorsHaveRoom(s: State, i: Index)
    requires Reachable(s) && i in s.consumers && s.consumers[i].pc.Reporting?
    ensures |s.g.errs| < s.n
  {
    ErrorsHold(s);
    RoomForError(s, i);
  }

  lemma SubsetCard<T>(a: set<T>, b: set<T>)
    requires a <= b
    ensures |a| <= |b|
  {
    assert a + (b - a) == b;
  }

  predicate HasFailed(c: Consumer) {
    Shown(c) == Failed
  }

  lemma FinishedShows(c: Consumer)
    requires Sound(c) && c.pc.Finished?
    ensures Shown(c) == Failed || Shown(c) == Stopped
    ensures HasFailed(c) <==> Sent(c)
  {
  }

  lemma ErrorsAreSenders(s: State)
    requires ErrorsCounted(s)
    ensures Elements(s.g.errs) == Where(s.consumers, Sent)
  {
    DistinctCard(s.g.errs);
    SameCard(Elements(s.g.errs), Where(s.consumers, Sent));
  }

  /** When Start returns its joined error, it joins one error for each consumer that
      ended as Failed, and none for the others. */
  lemma JoinedErrorsAreFailures(s: State, t: Tid)
    requires Reachable(s) && t in s.starts && s.starts[t].StartReturned? && s.starts[t].result.Joined?
    ensures var errs := s.starts[t].result.errs;
      && Elements(errs) == Where(s.consumers, HasFailed) && |errs| == |Where(s.consumers, HasFailed)|
      && (forall i :: i in s.consumers ==> Shown(s.consumers[i]) == Failed || Shown(s.consumers[i]) == Stopped)
  {
    SoundHolds(s);
    JoinedHolds(s, t);
    forall i | i in s.consumers
      ensures HasFailed(s.consumers[i]) <==> Sent(s.consumers[i])
      ensures Shown(s.consumers[i]) == Failed || Shown(s.consumers[i]) == Stopped
    {
      FinishedShows(s.consumers[i]);
    }
    assert Where(s.consumers, HasFailed) == Where(s.consumers, Sent);
    ErrorsHold(s);
    ErrorsAreSenders(s);
  }

  function Elements(xs: seq<Index>): set<Index> {
    set i | i in xs
  }

  lemma {:induction false} DistinctCard(xs: seq<Index>)
    requires forall j, k :: 0 <= j < k < |xs| ==> xs[j] != xs[k]
    ensures |Elements(xs)| == |xs|
  {
    if xs != [] {
      var rest := xs[..|xs| - 1];
      DistinctCard(rest);
      assert Elements(xs) == Elements(rest) + {xs[|xs| - 1]};
    }
  }

  lemma SameCard<T>(a: set<T>, b: set<T>)
    requires a <= b && |a| == |b|
    ensures a == b
  {
    assert a + (b - a) == b;
  }

  /** Which Start is refused how: ErrClientClosed only once the listener is closed, "may
      only be called once" only when another Start got through, and the one that got
      through neither. One that has returned has ended its context. */
  lemma RefusalsAreTrue(s: State, t: Tid)
    requires Reachable(s) && t in s.starts && s.starts[t].StartReturned?
    ensures match s.starts[t].result
      case ClientIsClosed => s.g.closed && s.g.runner != Some(t)
      case StartedTwice => s.g.started && s.g.runner.Some? && s.g.runner != Some(t)
      case Joined(_) => s.g.started && s.g.runner == Some(t) && s.g.cancelled && s.g.done
  {
    InvHolds(s);
    if s.g.runner == Some(t) {
      assert RunnerFits(s, s.starts[t]);
    }
  }

  /** Consumers are spawned at most once, whatever Start and close calls overlap. */
  lemma SpawnedAtMostOnce(s: State, i: Index)
    requires Reachable(s) && i in s.consumers
    ensures s.consumers[i].spawned <= 1
    ensures s.consumers[i].spawned == 0 ==> s.consumers[i] == FRESH
  {
    InvHolds(s);
    SpawnCount(s, i);
  }

  lemma SpawnCount(s: State, i: Index)
    requires Handshake(s) && i in s.consumers
    ensures s.consumers[i].spawned <= 1
    ensures s.consumers[i].spawned == 0 ==> Idle(s.consumers[i])
  {
    if s.g.started {
      assert RunnerFits(s, s.starts[s.g.runner.value]);
    }
  }

  /** A Start that comes to its check after close spawns nothing, on any run: it is
      never the one that runs, and it can only return ErrClientClosed. */
  lemma StartAfterClose(s: State, t: Tid, steps: seq<Step>)
    requires Reachable(s) && s.g.closed && (t in s.starts ==> s.starts[t].StartCalled?)
    requires Exec(Next, s, steps).Some?
    ensures var s' := Exec(Next, s, steps).value;
      && s'.g.closed && s'.g.runner == s.g.runner && s'.g.runner != Some(t)
      && (t in s'.starts ==> s'.starts[t].StartCalled? || s'.starts[t] == StartReturned(ClientIsClosed))
  {
    InvHolds(s);
    LateStartRefused(s, t, steps);
  }

  lemma {:induction false} LateStartRefused(s: State, t: Tid, steps: seq<Step>)
    requires Handshake(s) && s.g.closed && (t in s.starts ==> s.starts[t].StartCalled?)
    requires Exec(Next, s, steps).Some?
    ensures var s' := Exec(Next, s, steps).value;
      && s'.g.closed && s'.g.runner == s.g.runner && s'.g.runner != Some(t)
      && (t in s'.starts ==> s'.starts[t].StartCalled? || s'.starts[t] == StartReturned(ClientIsClosed))
    decreases |steps|
  {
    assert s.g.runner != Some(t);
    if steps != [] && !(steps[0] == RunStart(t)) {
      LateStartStep(s, t, steps[0]);
      NextKeepsHandshake(s, steps[0]);
      LateStartRefused(Next(s, steps[0]).value, t, steps[1..]);
    } else if steps != [] {
      RefusedForGood(Next(s, steps[0]).value, t, steps[1..]);
    }
  }

  lemma LateStartStep(s: State, t: Tid, step: Step)
    requires s.g.closed && Next(s, step).Some? && step != RunStart(t) && (t in s.starts ==> s.starts[t].StartCalled?)
    ensures var s' := Next(s, step).value;
      s'.g.closed && s'.g.runner == s.g.runner && (t in s'.starts ==> s'.starts[t].StartCalled?)
  {
    if step.Consume? {
      ConsumerAlone(s.n, s.g, step.i, s.consumers[step.i], step.ch);
    }
  }

  lemma {:induction false} RefusedForGood(s: State, t: Tid, steps: seq<Step>)
    requires s.g.closed && t in s.starts && s.starts[t] == StartReturned(ClientIsClosed)
    requires Exec(Next, s, steps).Some?
    ensures var s' := Exec(Next, s, steps).value;
      s'.g.closed && s'.g.runner == s.g.runner && t in s'.starts && s'.starts[t] == StartReturned(ClientIsClosed)
    decreases |steps|
  {
    if steps != [] {
      if steps[0].Consume? {
        ConsumerAlone(s.n, s.g, steps[0].i, s.consumers[steps[0].i], steps[0].ch);
      }
      RefusedForGood(Next(s, steps[0]).value, t, steps[1..]);
    }
  }

  predicate Running(c: Consumer) {
    !c.pc.NotSpawned? && !c.pc.Finished?
  }

  /** Closed for good: nothing was started, or everything has finished. */
  ghost predicate Quiet(s: State) {
    s.g.closed && (!s.g.started || s.g.done)
  }

  /** Once it is closed, a Start changes neither the flags nor the runner, except that
      the one that runs signals its end. */
  lemma StartOnceClosed(s: State, t: Tid)
    requires s.g.closed && t in s.starts && StartStep(s, t).Some?
    ensures var s' := StartStep(s, t).value; s'.g.closed && s'.g.started == s.g.started && (s.g.done ==> s'.g.done)
  {
    match s.starts[t]
    case StartCalled =>
    case Spawning(_) =>
    case Joining =>
    case Collecting =>
    case Cancelling(_) =>
    case Signalling(_) =>
  }

  lemma QuietStays(s: State, step: Step)
    requires Quiet(s) && Next(s, step).Some?
    ensures Quiet(Next(s, step).value)
  {
    match step
    case CallStart(_) =>
    case RunStart(t) => StartOnceClosed(s, t);
    case CallClose(_) =>
    case RunClose(_) =>
    case CancelCtx =>
    case PutMessage(_) =>
    case Consume(i, ch) => ConsumerAlone(s.n, s.g, i, s.consumers[i], ch);
  }

  lemma {:induction false} QuietForever(s: State, steps: seq<Step>)
    requires Inv(s) && Quiet(s) && Exec(Next, s, steps).Some?
    ensures Inv(Exec(Next, s, steps).value) && Quiet(Exec(Next, s, steps).value)
    decreases |steps|
  {
    if steps != [] {
      InvKept();
      QuietStays(s, steps[0]);
      QuietForever(Next(s, steps[0]).value, steps[1..]);
    }
  }

  /** After the first close has returned no consumer runs, then or at any later
      state of any run. */
  lemma NoConsumerAfterClose(s: State, t: Tid, steps: seq<Step>, i: Index)
    requires Reachable(s) && t in s.closes && s.closes[t] == CloseReturned(true)
    requires Exec(Next, s, steps).Some? && i in Exec(Next, s, steps).value.consumers
    ensures !Running(Exec(Next, s, steps).value.consumers[i])
  {
    InvHolds(s);
    assert CloseFits(s, s.closes[t]);
    QuietForever(s, steps);
    var s' := Exec(Next, s, steps).value;
    if s'.g.started {
      assert RunnerFits(s', s'.starts[s'.g.runner.value]);
    }
  }

  /** Every message ever put is still queued, in the hands of a consumer, in a handler,
      handled, or was lost in a broken get; each is in one of those places only. */
  lemma MessagesConserved(s: State)
    requires Reachable(s)
    ensures |s.g.mail.place| ==
            |s.g.mail.queue| + |Where(s.consumers, HasFetched)| + |Where(s.consumers, Handles)|
            + |s.g.mail.finished| + |s.g.mail.lost|
    ensures s.g.mail.queue !! s.g.mail.finished && s.g.mail.queue !! s.g.mail.lost && s.g.mail.finished !! s.g.mail.lost
    ensures forall i :: i in s.consumers && Busy(s.consumers[i]) ==>
              var m := s.consumers[i].pc.msg;
              m in s.g.mail.place && m !in s.g.mail.queue && m !in s.g.mail.finished && m !in s.g.mail.lost
  {
    ConservedHolds(s);
    WhereSplit(s.consumers, Busy, HasFetched, Handles);
    forall i | i in s.consumers && Busy(s.consumers[i])
      ensures Is(s.g.mail.place, s.consumers[i].pc.msg, Claim(s.consumers[i].pc, i).value.1)
    {
    }
  }

  /** Consumer i is at pc. */
  ghost predicate Stands(s: State, i: Index, pc: ConsumerPc) {
    i in s.consumers && s.consumers[i].pc == pc
  }

  lemma ClaimsHold(s: State, i: Index)
    requires Reachable(s) && i in s.consumers && Claim(s.consumers[i].pc, i).Some?
    ensures Is(s.g.mail.place, Claim(s.consumers[i].pc, i).value.0, Claim(s.consumers[i].pc, i).value.1)
    ensures Placed(s.g.mail)
  {
    ConservedHolds(s);
  }

  lemma PlaceHolds(s: State, m: Msg)
    requires Reachable(s)
    ensures Placed(s.g.mail)
    ensures m in s.g.mail.place && Claimed(s.g.mail.place[m]) ==>
      var i := s.g.mail.place[m].i; i in s.consumers && Claim(s.consumers[i].pc, i) == Some((m, s.g.mail.place[m]))
  {
    ConservedHolds(s);
  }

  /** A message is in the hands of one consumer at most, and at one point of its loop. */
  lemma OneHandler(s: State, i: Index, j: Index)
    requires Reachable(s) && i in s.consumers && j in s.consumers
    requires Claim(s.consumers[i].pc, i).Some? && Claim(s.consumers[j].pc, j).Some?
    requires Claim(s.consumers[i].pc, i).value.0 == Claim(s.consumers[j].pc, j).value.0
    ensures i == j
  {
    ClaimsHold(s, i);
    ClaimsHold(s, j);
  }

  /** The handler is called at most once for any message, across consumers, failures
      and reconnects: not while it is queued, lost or merely fetched, and exactly once
      from the call on. */
  lemma AtMostOnceDelivery(s: State, m: Msg)
    requires Reachable(s)
    ensures s.g.mail.invoked[m] <= 1
    ensures s.g.mail.invoked[m] == 1 <==> m in s.g.mail.finished || exists i :: Stands(s, i, Handling(m))
    ensures m in s.g.mail.queue || m in s.g.mail.lost || (exists i :: Stands(s, i, Fetched(m))) ==> s.g.mail.invoked[m] == 0
  {
    PlaceHolds(s, m);
    forall i | Stands(s, i, Fetched(m)) || Stands(s, i, Handling(m))
      ensures Is(s.g.mail.place, m, Claim(s.consumers[i].pc, i).value.1)
    {
      ClaimsHold(s, i);
    }
    if m in s.g.mail.place && s.g.mail.place[m].InHandler? {
      assert Stands(s, s.g.mail.place[m].i, Handling(m));
    }
  }

  /** A failure is reported exactly once and a success never: a finished message has a
      nil result and no report, or an error and one report, or an error whose report is
      the next step of the consumer that handled it. */
  lemma FailuresReportedOnce(s: State, m: Msg)
    requires Reachable(s) && m in s.g.mail.finished
    ensures m in s.g.mail.place &&
      match s.g.mail.place[m]
      case Done(r) => s.g.mail.reported[m] == One(r.Some?)
      case Owing(i, e) => s.g.mail.reported[m] == 0 && Stands(s, i, ReportingFailure(m, e))
      case _ => false
  {
    PlaceHolds(s, m);
  }

  /** Message m is with consumer i, or done with. */
  ghost predicate TakenBy(place: map<Msg, Place>, i: Index, m: Msg) {
    m in place && (place[m].Done? || (Claimed(place[m]) && place[m].i == i))
  }

  /** Once taken, a message moves only by its own consumer's steps, forward. */
  lemma MailKeepsTaken(b: Mail, cs: map<Index, Consumer>, i: Index, m: Msg, j: Index, ch: Choice, b': Mail, pc': ConsumerPc)
    requires Conserved(b, cs) && TakenBy(b.place, i, m) && j in cs && MailMove(b, j, cs[j].pc, ch, b', pc')
    ensures TakenBy(b'.place, i, m)
    ensures b.place[m].Done? ==> b'.place[m] == b.place[m]
    ensures b'.place[m] != b.place[m] ==> j == i
    ensures !b.place[m].Done? && b'.place[m].Done? ==> pc'.Polling?
  {
    if Claim(cs[j].pc, j).Some? {
      ClaimedKeepsTaken(b, i, m, j, cs[j].pc, ch, b', pc');
    } else if cs[j].pc.Getting? {
      GettingKeepsTaken(b, i, m, j, ch, b', pc');
    }
  }

  lemma GettingKeepsTaken(b: Mail, i: Index, m: Msg, j: Index, ch: Choice, b': Mail, pc': ConsumerPc)
    requires Placed(b) && TakenBy(b.place, i, m) && MailMove(b, j, Getting, ch, b', pc')
    ensures m in b'.place && b'.place[m] == b.place[m]
  {
  }

  lemma ClaimedKeepsTaken(b: Mail, i: Index, m: Msg, j: Index, pc: ConsumerPc, ch: Choice, b': Mail, pc': ConsumerPc)
    requires TakenBy(b.place, i, m) && MailMove(b, j, pc, ch, b', pc')
    requires Claim(pc, j).Some? && Is(b.place, Claim(pc, j).value.0, Claim(pc, j).value.1)
    ensures TakenBy(b'.place, i, m)
    ensures b.place[m].Done? ==> b'.place[m] == b.place[m]
    ensures b'.place[m] != b.place[m] ==> j == i
    ensures !b.place[m].Done? && b'.place[m].Done? ==> pc'.Polling?
  {
    match pc
    case Fetched(_) =>
    case Handling(_) =>
    case ReportingFailure(_, _) =>
  }

  /** A consumer that has a message, and still has it or is back at the poll, shows the
      state it showed before. */
  lemma BusyShowsNothing(n: nat, g: Shared, i: Index, c: Consumer, ch: Choice)
    requires Claim(c.pc, i).Some? && ConsumerStep(n, g, i, c, ch).To?
    ensures ConsumerStep(n, g, i, c, ch).c.trace == c.trace
  {
    match c.pc
    case Fetched(_) =>
    case Handling(_) =>
    case ReportingFailure(_, _) =>
  }

  /** Consumer i shows `trace`, and shows it still while it has message m. */
  ghost predicate Carries(s: State, i: Index, m: Msg, trace: seq<ConnectionState>) {
    && TakenBy(s.g.mail.place, i, m)
    && i in s.consumers
    && (s.g.mail.place[m].Done? || s.consumers[i].trace == trace)
  }

  lemma ConsumeCarries(s: State, i: Index, m: Msg, trace: seq<ConnectionState>, j: Index, ch: Choice)
    requires Conserved(s.g.mail, s.consumers) && Carries(s, i, m, trace) && Next(s, Consume(j, ch)).Some?
    ensures var s' := Next(s, Consume(j, ch)).value;
      && Carries(s', i, m, trace)
      && (!s.g.mail.place[m].Done? && s'.g.mail.place[m].Done? ==> Stands(s', i, Polling) && s'.consumers[i].trace == trace)
  {
    var move := ConsumerStep(s.n, s.g, j, s.consumers[j], ch);
    MailMoves(s.n, s.g, j, s.consumers[j], ch);
    MailKeepsTaken(s.g.mail, s.consumers, i, m, j, ch, move.g.mail, move.c.pc);
    if j == i && !s.g.mail.place[m].Done? {
      assert Claim(s.consumers[i].pc, i).Some?;
      BusyShowsNothing(s.n, s.g, i, s.consumers[i], ch);
    }
  }

  lemma StartCarries(s: State, i: Index, m: Msg, trace: seq<ConnectionState>, t: Tid)
    requires SpawnsFresh(s) && Conserved(s.g.mail, s.consumers) && Carries(s, i, m, trace) && t in s.starts && StartStep(s, t).Some?
    ensures Carries(StartStep(s, t).value, i, m, trace) && StartStep(s, t).value.g.mail == s.g.mail
  {
    StartEffect(s, t);
    if !s.g.mail.place[m].Done? {
      assert Claim(s.consumers[i].pc, i).Some?;
    }
  }

  /** A step of a caller or of the outside world that is not a spawn. */
  predicate Outside(step: Step) {
    !step.Consume? && !step.RunStart?
  }

  lemma OutsideLeavesMessages(s: State, step: Step)
    requires Outside(step) && Next(s, step).Some?
    ensures var s' := Next(s, step).value;
      && s'.consumers == s.consumers
      && s'.g.mail.place == if step.PutMessage? then s.g.mail.place[step.m := Queued] else s.g.mail.place
    ensures step.PutMessage? ==> step.m !in s.g.mail.place
  {
    match step
    case CallStart(_) =>
    case CallClose(_) =>
    case RunClose(_) =>
    case CancelCtx =>
    case PutMessage(_) =>
  }

  lemma NextCarries(s: State, i: Index, m: Msg, trace: seq<ConnectionState>, step: Step)
    requires SpawnsFresh(s) && Conserved(s.g.mail, s.consumers) && Carries(s, i, m, trace) && Next(s, step).Some?
    ensures var s' := Next(s, step).value;
      && Carries(s', i, m, trace)
      && (!s.g.mail.place[m].Done? && s'.g.mail.place[m].Done? ==> Stands(s', i, Polling) && s'.consumers[i].trace == trace)
  {
    if step.Consume? {
      ConsumeCarries(s, i, m, trace, step.i, step.ch);
    } else if step.RunStart? {
      StartCarries(s, i, m, trace, step.t);
    } else {
      OutsideLeavesMessages(s, step);
    }
  }

  lemma {:induction false} RunCarries(s: State, i: Index, m: Msg, trace: seq<ConnectionState>, steps: seq<Step>)
    requires Inv(s) && Carries(s, i, m, trace) && Exec(Next, s, steps).Some?
    ensures Inv(Exec(Next, s, steps).value) && Carries(Exec(Next, s, steps).value, i, m, trace)
    decreases |steps|
  {
    if steps != [] {
      InvKept();
      HandshakeSpawnsFresh(s);
      NextCarries(s, i, m, trace, steps[0]);
      RunCarries(Next(s, steps[0]).value, i, m, trace, steps[1..]);
    }
  }

  lemma FetchedCarries(s: State, i: Index, m: Msg)
    requires Inv(s) && Stands(s, i, Fetched(m))
    ensures Carries(s, i, m, s.consumers[i].trace)
  {
    assert Claim(s.consumers[i].pc, i) == Some((m, InHand(i)));
  }

  /** What is true of a message that consumer i has fetched: it is with i at one point of
      its loop, not yet handed to the handler, or handed to it once; or it is done with,
      handled once, and reported once if it failed. */
  ghost predicate HandledOnce(s: State, i: Index, m: Msg) {
    && m in s.g.mail.place
    && match s.g.mail.place[m]
       case InHand(j) => j == i && Stands(s, i, Fetched(m)) && s.g.mail.invoked[m] == 0 && s.g.mail.reported[m] == 0
       case InHandler(j) => j == i && Stands(s, i, Handling(m)) && s.g.mail.invoked[m] == 1 && s.g.mail.reported[m] == 0
       case Owing(j, e) =>
         j == i && Stands(s, i, ReportingFailure(m, e)) && s.g.mail.invoked[m] == 1 && s.g.mail.reported[m] == 0
       case Done(r) => s.g.mail.invoked[m] == 1 && s.g.mail.reported[m] == One(r.Some?)
       case _ => false
  }

  lemma TakenIsHandledOnce(s: State, i: Index, m: Msg)
    requires Conserved(s.g.mail, s.consumers) && TakenBy(s.g.mail.place, i, m)
    ensures HandledOnce(s, i, m)
  {
    match s.g.mail.place[m]
    case InHand(_) =>
    case InHandler(_) =>
    case Owing(_, _) =>
    case Done(_) =>
  }

  /** A fetched message on any run, whatever is cancelled or closed meanwhile: it stays
      with its consumer until it is done with. Its handler is called once, after the
      fetch and before the consumer polls again, and a failure is reported once. */
  lemma FetchedOnEveryRun(s: State, i: Index, m: Msg, steps: seq<Step>)
    requires Reachable(s) && Stands(s, i, Fetched(m)) && Exec(Next, s, steps).Some?
    ensures HandledOnce(Exec(Next, s, steps).value, i, m)
    ensures Stands(Exec(Next, s, steps).value, i, Polling) ==> Exec(Next, s, steps).value.g.mail.place[m].Done?
  {
    InvHolds(s);
    FetchedCarries(s, i, m);
    RunCarries(s, i, m, s.consumers[i].trace, steps);
    TakenIsHandledOnce(Exec(Next, s, steps).value, i, m);
  }

  /** And no outcome of the handler stops the consumer: at the step that settles the
      message, on any run, it is back at its poll and has shown no other state. */
  lemma HandlerNeverStopsConsumer(s: State, i: Index, m: Msg, steps: seq<Step>, last: Step)
    requires Reachable(s) && Stands(s, i, Fetched(m)) && Exec(Next, s, steps).Some?
    requires m in Exec(Next, s, steps).value.g.mail.place && !Exec(Next, s, steps).value.g.mail.place[m].Done?
    requires Next(Exec(Next, s, steps).value, last).Some?
    requires var place := Next(Exec(Next, s, steps).value, last).value.g.mail.place; m in place && place[m].Done?
    ensures var s' := Next(Exec(Next, s, steps).value, last).value;
      Stands(s', i, Polling) && s'.consumers[i].trace == s.consumers[i].trace
  {
    InvHolds(s);
    FetchedCarries(s, i, m);
    RunCarries(s, i, m, s.consumers[i].trace, steps);
    HandshakeSpawnsFresh(Exec(Next, s, steps).value);
    NextCarries(Exec(Next, s, steps).value, i, m, s.consumers[i].trace, last);
  }

  // ------------------------------------------------------------ clean shutdown

  /** The consumer is leaving, or has left, with an error. */
  predicate Failing(c: Consumer) {
    match c.pc
    case Exiting(r) => r.Some?
    case Reporting(r) => r.Some?
    case Finished(r) => r.Some?
    case _ => false
  }

  ghost predicate Clean(s: State) {
    s.g.cancelled && forall i :: i in s.consumers ==> !Failing(s.consumers[i])
  }

  lemma CancelledStep(n: nat, g: Shared, i: Index, c: Consumer, ch: Choice)
    requires g.cancelled && !Failing(c) && ConsumerStep(n, g, i, c, ch).To?
    ensures var To(g', c') := ConsumerStep(n, g, i, c, ch); g'.cancelled && !Failing(c')
  {
  }

  lemma CleanStays(s: State, step: Step)
    requires Clean(s) && Next(s, step).Some?
    ensures Clean(Next(s, step).value)
  {
    if step.Consume? {
      CancelledStep(s.n, s.g, step.i, s.consumers[step.i], step.ch);
    }
  }

  /** If no consumer has failed when the context ends, none ever does, and Start
      returns nil on every continuation on which it returns. */
  lemma CancellationIsClean(s: State, steps: seq<Step>, t: Tid)
    requires Reachable(s) && Clean(s) && Exec(Next, s, steps).Some?
    ensures Clean(Exec(Next, s, steps).value)
    ensures var s' := Exec(Next, s, steps).value;
      t in s'.starts && s'.starts[t].StartReturned? && s'.starts[t].result.Joined? ==> s'.starts[t].result.errs == []
  {
    forall s, step | Clean(s) && Next(s, step).Some?
      ensures Clean(Next(s, step).value)
    {
      CleanStays(s, step);
    }
    ExecKeeps(Next, Clean, s, steps);
    var s' := Exec(Next, s, steps).value;
    ReachableExec(s, steps);
    if t in s'.starts && s'.starts[t].StartReturned? && s'.starts[t].result.Joined? {
      JoinedHolds(s', t);
      ErrorsHold(s');
      assert Where(s'.consumers, Sent) == {};
    }
  }

  lemma ReachableExec(s: State, steps: seq<Step>)
    requires Reachable(s) && Exec(Next, s, steps).Some?
    ensures Reachable(Exec(Next, s, steps).value)
  {
    var n: nat :| n >= 1 && Reaches(Next, Init(n), s);
    ReachesOn(Next, Init(n), s, steps);
  }

  lemma ReachableNext(s: State, step: Step)
    requires Reachable(s) && Next(s, step).Some?
    ensures Reachable(Next(s, step).value)
  {
    OneStep(Next, s, step);
    ReachableExec(s, [step]);
  }
}
