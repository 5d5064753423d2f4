/** Request-reply over one shared reply queue: how a call picks its routing key, and
    what any number of callers and repliers do to the two queues. */
module FixedQueue {
  import opened Errors
  import opened Hex
  import opened Correlation
  import opened Counting
  import opened Runs

  // ------------------------------------------------------------ a single call

  /** The message creator sees the generated ID in hex and may replace it; None is its error. */
  type Creator = string -> Option<string>

  /** Steps 1, 2, 4 and 5 of a fixed-queue call, as far as the correlation ID goes:
      the bytes put on the request and the bytes the reply is fetched with. */
  method PrepareCall(generated: CorrelId, creator: Creator) returns (ok: bool, put: seq<byte>, filter: seq<byte>)
    ensures ok <==> var id := creator(Encode(generated)); id.Some? && (id.value == "" || ValidId(id.value))
    ensures ok ==> Some(put) == Some(filter) == RoutingKey(generated, creator(Encode(generated)).value)
    ensures creator(Encode(generated)) == Some("") ==> ok && put == filter == generated
    ensures ok && creator(Encode(generated)).value != "" ==> Encode(put) == Canonical(creator(Encode(generated)).value)
  {
    var correlBytes := new byte[CORREL_LENGTH](i requires 0 <= i < CORREL_LENGTH => generated[i]);
    assert correlBytes[..] == generated;
    var id := creator(Encode(correlBytes[..]));
    if id.None? {
      return false, [], [];
    }
    if id.value != "" {
      var decoded := Decode(id.value);
      if decoded.None? || |decoded.value| > CORREL_LENGTH {
        DecodersDiffer(id.value, generated);
        return false, [], [];
      }
      correlBytes := new byte[CORREL_LENGTH](_ => 0);
      forall i | 0 <= i < |decoded.value| {
        correlBytes[i] := decoded.value[i];
      }
      assert correlBytes[..] == Pad(decoded.value);
    }
    ok, put, filter := true, correlBytes[..], correlBytes[..];
    DecodersDiffer(id.value, generated);
    if id.value != "" {
      DecodersAgree(id.value, generated);
    }
  }

  /** A creator that leaves the ID alone keeps the generated bytes. */
  lemma UntouchedIdIsGenerated(generated: CorrelId)
    ensures RoutingKey(generated, Encode(generated)) == Some(generated)
  {
    CorrelIdSurvivesRelay(generated, generated);
  }

  // -------------------------------------------------------------- many callers

  type CallerId = nat
  type ReplierId = nat

  /** Each caller's routing key. */
  type Keys = map<CallerId, CorrelId>

  datatype Phase = Waiting | Got(answerTo: CallerId) | TimedOut

  /** A request or a reply on a queue; `call` is the call it belongs to. */
  datatype Msg = Msg(call: CallerId, correl: CorrelId)

  /** A request in a replier's handler, as the listener presents it. */
  datatype Handled = Handled(call: CallerId, correlationId: string)

  datatype State = State(
    keys: Keys,
    callers: map<CallerId, Phase>,
    requests: multiset<Msg>,
    handling: map<ReplierId, Handled>,
    replies: multiset<Msg>,
    tally: Tally)

  /** Requests whose handler is over, requests that expired, replies put, replies that expired. */
  datatype Tally = Tally(handled: nat, lapsed: nat, answered: nat, expired: nat)

  function Init(keys: Keys): State {
    State(keys, map[], multiset{}, map[], multiset{}, Tally(0, 0, 0, 0))
  }

  /** MQMO_MATCH_CORREL_ID, for which an all-zero filter matches every message. */
  predicate Matches(filter: CorrelId, correl: CorrelId) {
    filter == NONE || filter == correl
  }

  datatype Step =
    | PutRequest(c: CallerId)
    | Consume(r: ReplierId, m: Msg)
    | SendReply(r: ReplierId)          // any number of times, so duplicates are included
    | FinishHandler(r: ReplierId)
    | GetReply(c: CallerId, m: Msg)
    | TimeOut(c: CallerId)
    | LoseRequest(m: Msg)              // it expires
    | LoseReply(m: Msg)

  function Next(s: State, step: Step): Option<State> {
    match step
    case PutRequest(c) =>
      if c in s.keys && c !in s.callers then
        Some(s.(callers := s.callers[c := Waiting], requests := s.requests + multiset{Msg(c, s.keys[c])}))
      else None
    case Consume(r, m) =>
      if m in s.requests && r !in s.handling then
        Some(s.(requests := s.requests - multiset{m}, handling := s.handling[r := Handled(m.call, Encode(m.correl))]))
      else None
    case SendReply(r) =>
      if r in s.handling then
        var h := s.handling[r];
        Some(s.(replies := s.replies + multiset{Msg(h.call, Apply(h.correlationId))},
                tally := s.tally.(answered := s.tally.answered + 1)))
      else None
    case FinishHandler(r) =>
      if r in s.handling then
        Some(s.(handling := s.handling - {r}, tally := s.tally.(handled := s.tally.handled + 1)))
      else None
    case GetReply(c, m) =>
      if c in s.keys && c in s.callers && s.callers[c] == Waiting && m in s.replies && Matches(s.keys[c], m.correl) then
        Some(s.(callers := s.callers[c := Got(m.call)], replies := s.replies - multiset{m}))
      else None
    case TimeOut(c) =>
      if c in s.callers && s.callers[c] == Waiting then Some(s.(callers := s.callers[c := TimedOut])) else None
    case LoseRequest(m) =>
      if m in s.requests then
        Some(s.(requests := s.requests - multiset{m}, tally := s.tally.(lapsed := s.tally.lapsed + 1)))
      else None
    case LoseReply(m) =>
      if m in s.replies then
        Some(s.(replies := s.replies - multiset{m}, tally := s.tally.(expired := s.tally.expired + 1)))
      else None
  }

  /** No two callers share a key, and no key of two or more is all zero. */
  ghost predicate Routable(keys: Keys) {
    forall a, b :: a in keys && b in keys && a != b ==> keys[a] != keys[b] && keys[a] != NONE
  }

  ghost predicate AllRouted(s: State) {
    forall c :: c in s.callers && s.callers[c].Got? ==> s.callers[c].answerTo == c
  }

  // ------------------------------------------------------------------ routing

  ghost predicate Carries(keys: Keys, ms: multiset<Msg>) {
    forall m :: m in ms ==> m.call in keys && m.correl == keys[m.call]
  }

  ghost predicate Presents(keys: Keys, hs: map<ReplierId, Handled>) {
    forall r :: r in hs ==> hs[r].call in keys && hs[r].correlationId == Encode(keys[hs[r].call])
  }

  ghost predicate Inv(s: State) {
    Carries(s.keys, s.requests) && Carries(s.keys, s.replies) && Presents(s.keys, s.handling)
  }

  lemma AddingCarries(keys: Keys, ms: multiset<Msg>, c: CallerId)
    requires Carries(keys, ms) && c in keys
    ensures Carries(keys, ms + multiset{Msg(c, keys[c])})
  {
  }

  lemma RemovingCarries(keys: Keys, ms: multiset<Msg>, m: Msg)
    requires Carries(keys, ms)
    ensures Carries(keys, ms - multiset{m})
  {
    assert forall x :: x in ms - multiset{m} ==> x in ms;
  }

  lemma ConsumingPresents(keys: Keys, hs: map<ReplierId, Handled>, r: ReplierId, c: CallerId)
    requires Presents(keys, hs) && c in keys
    ensures Presents(keys, hs[r := Handled(c, Encode(keys[c]))])
  {
  }

  lemma RequestsCarry(s: State, step: Step)
    requires Carries(s.keys, s.requests) && Next(s, step).Some?
    ensures Carries(s.keys, Next(s, step).value.requests)
  {
    match step
    case PutRequest(c) => AddingCarries(s.keys, s.requests, c);
    case Consume(_, m) => RemovingCarries(s.keys, s.requests, m);
    case LoseRequest(m) => RemovingCarries(s.keys, s.requests, m);
    case _ =>
  }

  lemma HandlersPresent(s: State, step: Step)
    requires Carries(s.keys, s.requests) && Presents(s.keys, s.handling) && Next(s, step).Some?
    ensures Presents(s.keys, Next(s, step).value.handling)
  {
    match step
    case Consume(r, m) => ConsumingPresents(s.keys, s.handling, r, m.call);
    case _ =>
  }

  /** The ID goes through the listener's encoding and the sender's decoding here. */
  lemma RepliesCarry(s: State, step: Step)
    requires Carries(s.keys, s.replies) && Presents(s.keys, s.handling) && Next(s, step).Some?
    ensures Carries(s.keys, Next(s, step).value.replies)
  {
    match step
    case SendReply(r) =>
      var c := s.handling[r].call;
      CorrelIdSurvivesRelay(s.keys[c], NONE);
      AddingCarries(s.keys, s.replies, c);
    case GetReply(_, m) => RemovingCarries(s.keys, s.replies, m);
    case LoseReply(m) => RemovingCarries(s.keys, s.replies, m);
    case _ =>
  }

  /** What a step does to the callers. */
  function CallersAfter(callers: map<CallerId, Phase>, step: Step): map<CallerId, Phase> {
    match step
    case PutRequest(c) => callers[c := Waiting]
    case GetReply(c, m) => callers[c := Got(m.call)]
    case TimeOut(c) => callers[c := TimedOut]
    case _ => callers
  }

  predicate ByCaller(step: Step) {
    step.PutRequest? || step.GetReply? || step.TimeOut?
  }

  lemma CallerSteps(s: State, step: Step)
    requires ByCaller(step) && Next(s, step).Some?
    ensures Next(s, step).value.keys == s.keys && Next(s, step).value.callers == CallersAfter(s.callers, step)
    ensures step.GetReply? ==> step.c in s.keys && step.m in s.replies && Matches(s.keys[step.c], step.m.correl)
  {
    match step
    case PutRequest(_) =>
    case GetReply(_, _) =>
    case TimeOut(_) =>
  }

  lemma OtherSteps(s: State, step: Step)
    requires !ByCaller(step) && Next(s, step).Some?
    ensures Next(s, step).value.keys == s.keys && Next(s, step).value.callers == s.callers
  {
    match step
    case Consume(_, _) =>
    case SendReply(_) =>
    case FinishHandler(_) =>
    case LoseRequest(_) =>
    case LoseReply(_) =>
  }

  lemma CallersChange(s: State, step: Step)
    requires Next(s, step).Some?
    ensures Next(s, step).value.keys == s.keys && Next(s, step).value.callers == CallersAfter(s.callers, step)
    ensures step.GetReply? ==> step.c in s.keys && step.m in s.replies && Matches(s.keys[step.c], step.m.correl)
  {
    if ByCaller(step) {
      CallerSteps(s, step);
    } else {
      OtherSteps(s, step);
    }
  }

  lemma NextKeepsInv(s: State, step: Step)
    requires Inv(s) && Next(s, step).Some?
    ensures Inv(Next(s, step).value) && Next(s, step).value.keys == s.keys
  {
    RequestsCarry(s, step);
    HandlersPresent(s, step);
    RepliesCarry(s, step);
    CallersChange(s, step);
    var s' := Next(s, step).value;
    assert Carries(s'.keys, s'.requests) && Carries(s'.keys, s'.replies) && Presents(s'.keys, s'.handling);
  }

  /** Under a routable set of keys a filter matches only its own caller's replies. */
  lemma MatchIsOwn(keys: Keys, replies: multiset<Msg>, c: CallerId, m: Msg)
    requires Routable(keys) && Carries(keys, replies) && c in keys && m in replies && Matches(keys[c], m.correl)
    ensures m.call == c
  {
    assert m.call in keys && m.correl == keys[m.call];
  }

  lemma GetIsOwn(s: State, step: Step)
    requires Carries(s.keys, s.replies) && Routable(s.keys) && AllRouted(s) && Next(s, step).Some?
    ensures AllRouted(Next(s, step).value)
  {
    CallersChange(s, step);
    if step.GetReply? {
      MatchIsOwn(s.keys, s.replies, step.c, step.m);
    }
  }

  /** Every reply any caller ever gets answers its own request. */
  lemma RepliesAnswerOwnRequest(keys: Keys, s: State)
    requires Routable(keys) && Reaches(Next, Init(keys), s)
    ensures AllRouted(s)
  {
    var inv := (s: State) => Inv(s) && Routable(s.keys) && AllRouted(s);
    forall s, step | inv(s) && Next(s, step).Some?
      ensures inv(Next(s, step).value)
    {
      NextKeepsInv(s, step);
      GetIsOwn(s, step);
    }
    ReachesKeeps(Next, inv, Init(keys), s);
  }

  // ------------------------------------------------------------ conservation

  predicate HasGot(p: Phase) {
    p.Got?
  }

  /** Every request put is on its queue, with a replier, handled or expired; every reply put
      is on the shared queue, with exactly one caller, or expired. */
  ghost predicate Conserved(s: State) {
    && |s.callers| == |s.requests| + |s.handling| + s.tally.handled + s.tally.lapsed
    && s.tally.answered == |s.replies| + |Where(s.callers, HasGot)| + s.tally.expired
  }

  lemma CallerMoves(callers: map<CallerId, Phase>, c: CallerId, p: Phase)
    ensures |callers[c := p]| == |callers| + One(c !in callers)
    ensures |Where(callers[c := p], HasGot)| == |Where(callers, HasGot)| - One(c in callers && HasGot(callers[c])) + One(HasGot(p))
  {
    assert callers[c := p].Keys == callers.Keys + {c};
    CardWithout(callers.Keys + {c}, c);
    assert callers.Keys + {c} - {c} == callers.Keys - {c};
    CardWithout(callers.Keys, c);
    WhereUpdate(callers, c, p, HasGot);
  }

  lemma PutConserves(s: State, c: CallerId)
    requires Conserved(s) && Next(s, PutRequest(c)).Some?
    ensures Conserved(Next(s, PutRequest(c)).value)
  {
    CallerMoves(s.callers, c, Waiting);
  }

  lemma GetConserves(s: State, c: CallerId, m: Msg)
    requires Conserved(s) && Next(s, GetReply(c, m)).Some?
    ensures Conserved(Next(s, GetReply(c, m)).value)
  {
    CallerMoves(s.callers, c, Got(m.call));
  }

  lemma CallerConserves(s: State, step: Step)
    requires Conserved(s) && ByCaller(step) && Next(s, step).Some?
    ensures Conserved(Next(s, step).value)
  {
    match step
    case PutRequest(c) => PutConserves(s, c);
    case GetReply(c, m) => GetConserves(s, c, m);
    case TimeOut(c) => CallerMoves(s.callers, c, TimedOut);
  }

  lemma OtherConserves(s: State, step: Step)
    requires Conserved(s) && !ByCaller(step) && Next(s, step).Some?
    ensures Conserved(Next(s, step).value)
  {
    match step
    case Consume(r, m) => assert s.handling[r := Handled(m.call, Encode(m.correl))].Keys == s.handling.Keys + {r};
    case SendReply(_) =>
    case FinishHandler(r) => assert (s.handling - {r}).Keys == s.handling.Keys - {r};
    case LoseRequest(_) =>
    case LoseReply(_) =>
  }

  lemma MessagesConserved(keys: Keys, s: State)
    requires Reaches(Next, Init(keys), s)
    ensures |s.callers| == |s.requests| + |s.handling| + s.tally.handled + s.tally.lapsed
    ensures s.tally.answered == |s.replies| + |Where(s.callers, HasGot)| + s.tally.expired
  {
    forall s, step | Conserved(s) && Next(s, step).Some?
      ensures Conserved(Next(s, step).value)
    {
      if ByCaller(step) {
        CallerConserves(s, step);
      } else {
        OtherConserves(s, step);
      }
    }
    assert Where(Init(keys).callers, HasGot) == {};
    ReachesKeeps(Next, Conserved, Init(keys), s);
  }

  /** And only then: if two keys coincide, or one is all zero, some run hands a
      caller the reply to another's request. */
  lemma MisroutedRun(keys: Keys, a: CallerId, b: CallerId) returns (s: State)
    requires a in keys && b in keys && a != b && (keys[a] == keys[b] || keys[a] == NONE)
    ensures Reaches(Next, Init(keys), s) && !AllRouted(s)
  {
    s := AnsweredRun(keys, b);
    s := Take(keys, s, PutRequest(a));
    s := Take(keys, s, GetReply(a, Msg(b, keys[b])));
    assert s.callers[a] == Got(b);
  }

  /** Caller b's request is answered, and the reply waits on the shared queue. */
  lemma AnsweredRun(keys: Keys, b: CallerId) returns (s: State)
    requires b in keys
    ensures Reaches(Next, Init(keys), s)
    ensures s.keys == keys && s.callers == map[b := Waiting] && Msg(b, keys[b]) in s.replies
  {
    s := Init(keys);
    ReachesItself(Next, s);
    s := Take(keys, s, PutRequest(b));
    s := Take(keys, s, Consume(0, Msg(b, keys[b])));
    CorrelIdSurvivesRelay(keys[b], NONE);
    s := Take(keys, s, SendReply(0));
  }

  lemma Take(keys: Keys, s: State, step: Step) returns (s': State)
    requires Reaches(Next, Init(keys), s) && Next(s, step).Some?
    ensures s' == Next(s, step).value && Reaches(Next, Init(keys), s')
  {
    s' := Next(s, step).value;
    ReachesNext(Next, Init(keys), s, step);
  }

  lemma RoutingCorrectIff(keys: Keys)
    ensures Routable(keys) <==> forall s :: Reaches(Next, Init(keys), s) ==> AllRouted(s)
  {
    if Routable(keys) {
      forall s | Reaches(Next, Init(keys), s) ensures AllRouted(s) {
        RepliesAnswerOwnRequest(keys, s);
      }
    } else {
      var a, b :| a in keys && b in keys && a != b && (keys[a] == keys[b] || keys[a] == NONE);
      var s := MisroutedRun(keys, a, b);
    }
  }

  /** A call whose ID is accepted: what was generated, and what the creator made of it. */
  datatype Call = Call(generated: CorrelId, id: string)

  type GoodCall = c: Call | c.id == "" || ValidId(c.id) witness Call(NONE, "")

  /** The keys of these calls. */
  function KeysFor(calls: map<CallerId, GoodCall>): Keys {
    map c | c in calls && RoutingKey(calls[c].generated, calls[c].id).Some? ::
      RoutingKey(calls[c].generated, calls[c].id).value
  }

  /** How a call's key reads: the generated bytes if the creator blanked the ID. */
  function Spelling(c: GoodCall): string {
    if c.id == "" then Encode(c.generated) else Canonical(c.id)
  }

  ghost predicate DistinctSpellings(calls: map<CallerId, GoodCall>) {
    forall a, b :: a in calls && b in calls && a != b ==>
      Spelling(calls[a]) != Spelling(calls[b]) && Spelling(calls[a]) != ZeroDigits(2 * CORREL_LENGTH)
  }

  lemma KeySpelled(c: GoodCall)
    ensures RoutingKey(c.generated, c.id).Some? && Encode(RoutingKey(c.generated, c.id).value) == Spelling(c)
  {
    DecodersDiffer(c.id, c.generated);
    if c.id != "" {
      DecodersAgree(c.id, c.generated);
    }
  }

  lemma SpelledApart(x: CorrelId, y: CorrelId)
    ensures x == y <==> Encode(x) == Encode(y)
    ensures x == NONE <==> Encode(x) == ZeroDigits(2 * CORREL_LENGTH)
  {
    EncodeDecode(x);
    EncodeDecode(y);
    EncodeZeros(CORREL_LENGTH);
    EncodeDecode(NONE);
  }

  /** The same condition read off what the callers generate and choose: replies are
      routed correctly on every run exactly when no two calls spell the same key and none
      of several spells all zeros. */
  lemma RoutableByName(calls: map<CallerId, GoodCall>)
    ensures KeysFor(calls).Keys == calls.Keys
    ensures Routable(KeysFor(calls)) <==> DistinctSpellings(calls)
  {
    var keys := KeysFor(calls);
    forall a | a in calls ensures a in keys && Encode(keys[a]) == Spelling(calls[a]) {
      KeySpelled(calls[a]);
    }
    forall a, b | a in calls && b in calls
      ensures keys[a] == keys[b] <==> Spelling(calls[a]) == Spelling(calls[b])
      ensures keys[a] == NONE <==> Spelling(calls[a]) == ZeroDigits(2 * CORREL_LENGTH)
    {
      SpelledApart(keys[a], keys[b]);
    }
    if DistinctSpellings(calls) {
      forall a, b | a in keys && b in keys && a != b
        ensures keys[a] != keys[b] && keys[a] != NONE
      {
        assert Spelling(calls[a]) != Spelling(calls[b]);
      }
    }
    if Routable(keys) {
      forall a, b | a in calls && b in calls && a != b
        ensures Spelling(calls[a]) != Spelling(calls[b]) && Spelling(calls[a]) != ZeroDigits(2 * CORREL_LENGTH)
      {
        assert keys[a] != keys[b];
      }
    }
  }
}
