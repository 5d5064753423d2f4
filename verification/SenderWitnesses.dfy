/** Reachable states in which the sender's documentation does not hold. */
module SenderWitnesses {
  import opened Errors
  import opened ConnectionStates
  import opened SenderPool
  import opened SenderProtocol
  import opened SenderInvariants
  import opened SenderTheorems
  import opened SenderWaiting
  import opened Runs

  const BROKEN := MQReturn(2, 2009)

  lemma Start() returns (s: State)
    ensures Reachable(s) && s == Init(1)
  {
    s := Init(1);
    ReachesItself(Next, s);
  }

  lemma Then(s: State, step: Step) returns (s': State)
    requires Reachable(s) && Next(s, step).Some?
    ensures s' == Next(s, step).value && Reachable(s')
  {
    s' := Next(s, step).value;
    ReachableNext(s, step);
  }

  const EMPTY := Init(1).g

  /** A send is admitted, and then `close` reads its bound. */
  lemma AdmittedBeforeClose() returns (s: State)
    ensures Reachable(s)
    ensures s == State(EMPTY.(core := Shut(Admit(EMPTY.core)), closer := Some(1)),
                       map[0 := Send(CheckingCtx, NOTHING_YET), 1 := Close(AwaitingSends(0))])
  {
    s := Start();
    s := Then(s, Call(0, SEND));
    s := Then(s, Run(0, Auto));
    assert s.threads == map[0 := Send(CheckingCtx, NOTHING_YET)];
    s := Then(s, Call(1, Close(Beginning)));
    s := Then(s, Run(1, Auto));
    assert s.threads == map[0 := Send(CheckingCtx, NOTHING_YET), 1 := Close(AwaitingSends(0))];
  }

  lemma ReservingAfterClose() returns (s: State)
    ensures Reachable(s)
    ensures s == State(EMPTY.(core := Shut(Admit(EMPTY.core)), closer := Some(1)),
                       map[0 := Send(Reserving, NOTHING_YET), 1 := Close(AwaitingSends(0))])
  {
    s := AdmittedBeforeClose();
    s := Then(s, Run(0, Auto));
    assert s.threads[0].pc == TryingPool;
    s := Then(s, Run(0, Auto));
    assert s.threads == map[0 := Send(Reserving, NOTHING_YET), 1 := Close(AwaitingSends(0))];
  }

  lemma DiallingAfterClose() returns (s: State)
    ensures Reachable(s)
    ensures s == State(EMPTY.(core := Reserve(Shut(Admit(EMPTY.core))), closer := Some(1)),
                       map[0 := Send(Dialling, NOTHING_YET), 1 := Close(AwaitingSends(0))])
  {
    s := ReservingAfterClose();
    s := Then(s, Run(0, Auto));
    assert s.threads[0].pc == DialCheck;
    s := Then(s, Run(0, Auto));
    assert s.threads == map[0 := Send(Dialling, NOTHING_YET), 1 := Close(AwaitingSends(0))];
  }

  lemma PutAfterClose() returns (s: State)
    ensures Reachable(s)
    ensures s.g.core == Reserve(Shut(Admit(EMPTY.core))).(state := Connected)
    ensures s.g.conn == [Connected] && s.g.owner == [HeldBy(0)]
    ensures s.threads.Keys == {0, 1} && s.threads[0].Send? && s.threads[0].pc == MarkingSent(0)
    ensures s.threads[1] == Close(AwaitingSends(0))
  {
    s := DiallingAfterClose();
    s := Then(s, Run(0, DialOk));
    assert s.threads[0].pc == Acquired(0);
    s := Then(s, Run(0, Auto));
    assert s.threads[0].pc == Putting(0);
    s := Then(s, Run(0, PutAck));
  }

  lemma ReleasingAfterClose() returns (s: State)
    ensures Reachable(s)
    ensures s.g.core == Reserve(Shut(Admit(EMPTY.core))).(state := Connected)
    ensures s.g.conn == [Connected]
    ensures s.threads.Keys == {0, 1} && s.threads[0].Send? && s.threads[0].pc == Releasing(0, None)
    ensures s.threads[1] == Close(AwaitingSends(0))
  {
    s := PutAfterClose();
    s := Then(s, Run(0, Auto));
  }

  lemma SentAfterClose() returns (s: State)
    ensures Reachable(s)
    ensures s.g.core.pool == [0] && s.g.conn == [Connected] && s.g.core.wg == 0 && s.g.core.poolMu.None?
    ensures s.threads.Keys == {0, 1} && s.threads[0].Send? && s.threads[0].pc == Returned(None)
    ensures s.threads[1] == Close(AwaitingSends(0))
  {
    s := ReleasingAfterClose();
    s := Then(s, Run(0, Auto));
    assert s.threads[0].pc == Leaving(None);
    s := Then(s, Run(0, Auto));
  }

  /** A send admitted before `close` reads its bound creates a connection after it,
      and that connection outlives `close`: idle in the pool and still connected. */
  lemma ConnectionOutlivesClose() returns (s: State)
    ensures Reachable(s)
    ensures 1 in s.threads && s.threads[1] == Close(Finished(0, 0))
    ensures s.g.core.pool == [0] && s.g.conn == [Connected]
    ensures forall t :: t in s.threads ==> !InFlight(s.threads[t])
  {
    s := SentAfterClose();
    s := Then(s, Run(1, Auto));
    s := Then(s, Run(1, Auto));
    s := Then(s, Run(1, Auto));
  }

  lemma FirstSendReserves() returns (s: State)
    ensures Reachable(s)
    ensures s == State(EMPTY.(core := EMPTY.core.(wg := 1)), map[0 := Send(Reserving, NOTHING_YET)])
  {
    s := Start();
    s := Then(s, Call(0, SEND));
    s := Then(s, Run(0, Auto));
    assert s.threads[0].pc == CheckingCtx;
    s := Then(s, Run(0, Auto));
    assert s.threads[0].pc == TryingPool;
    s := Then(s, Run(0, Auto));
    assert s.threads == map[0 := Send(Reserving, NOTHING_YET)];
  }

  lemma FirstSendDials() returns (s: State)
    ensures Reachable(s)
    ensures s == State(EMPTY.(core := EMPTY.core.(created := 1, wg := 1)), map[0 := Send(Dialling, NOTHING_YET)])
  {
    s := FirstSendReserves();
    s := Then(s, Run(0, Auto));
    assert s.threads[0].pc == DialCheck;
    s := Then(s, Run(0, Auto));
    assert s.threads == map[0 := Send(Dialling, NOTHING_YET)];
  }

  lemma FirstSendPuts() returns (s: State)
    ensures Reachable(s)
    ensures s == State(EMPTY.(core := EMPTY.core.(created := 1, state := Connected, wg := 1), conn := [Connected], owner := [HeldBy(0)]),
                       map[0 := Send(Putting(0), NOTHING_YET.(acquired := 1, marks := [UP]))])
  {
    s := FirstSendDials();
    s := Then(s, Run(0, DialOk));
    assert s.threads[0].pc == Acquired(0);
    assert NOTHING_YET.marks + [Mark(Connected, None)] == [UP];
    s := Then(s, Run(0, Auto));
    assert s.threads == map[0 := Send(Putting(0), NOTHING_YET.(acquired := 1, marks := [UP]))];
  }

  lemma SecondSendAdmitted() returns (s: State)
    ensures Reachable(s)
    ensures s == State(EMPTY.(core := EMPTY.core.(created := 1, state := Connected, wg := 2), conn := [Connected], owner := [HeldBy(0)]),
                       map[0 := Send(Putting(0), NOTHING_YET.(acquired := 1, marks := [UP])), 1 := Send(CheckingCtx, NOTHING_YET)])
  {
    s := FirstSendPuts();
    s := Then(s, Call(1, SEND));
    s := Then(s, Run(1, Auto));
  }

  lemma SecondSendWaits() returns (s: State)
    ensures Reachable(s)
    ensures s == State(EMPTY.(core := EMPTY.core.(created := 1, state := Connected, wg := 2), conn := [Connected], owner := [HeldBy(0)]),
                       map[0 := Send(Putting(0), NOTHING_YET.(acquired := 1, marks := [UP])), 1 := Send(Waiting(0), NOTHING_YET)])
  {
    s := SecondSendAdmitted();
    s := Then(s, Run(1, Auto));
    assert s.threads[1].pc == TryingPool;
    s := Then(s, Run(1, Auto));
    assert s.threads[1].pc == Reserving;
    s := Then(s, Run(1, Auto));
  }

  lemma FirstSendLosesConnection() returns (s: State)
    ensures Reachable(s)
    ensures s.g.core == EMPTY.core.(created := 1, state := Reconnecting, lastErr := Some(BROKEN), wg := 2)
    ensures s.g.cancelled == {} && s.g.owner == [HeldBy(0)] && |s.g.conn| == 1
    ensures s.threads.Keys == {0, 1} && s.threads[1] == Send(Waiting(0), NOTHING_YET)
    ensures s.threads[0].Send? && s.threads[0].pc == Redialling(0)
  {
    s := SecondSendWaits();
    assert IsConnectionError(BROKEN);
    s := Then(s, Run(0, PutErr(BROKEN)));
    assert s.threads[0].pc == MarkingLost(0, BROKEN);
    s := Then(s, Run(0, Auto));
    assert s.threads[0].pc == RedialCheck(0);
    s := Then(s, Run(0, Auto));
  }

  lemma FirstSendGivesUp() returns (s: State)
    ensures Reachable(s)
    ensures s.g.core == EMPTY.core.(created := 1, state := Reconnecting, lastErr := Some(BROKEN), wg := 2)
    ensures s.g.cancelled == {} && s.threads.Keys == {0, 1} && s.threads[1] == Send(Waiting(0), NOTHING_YET)
    ensures s.threads[0].Send? && s.threads[0].pc == Discarding(0, BROKEN, true)
  {
    s := FirstSendLosesConnection();
    s := Then(s, Run(0, RedialErr(BROKEN)));
  }

  lemma FirstSendDiscards() returns (s: State)
    ensures Reachable(s)
    ensures s.g.core == EMPTY.core.(state := Reconnecting, lastErr := Some(BROKEN), wg := 2) && s.g.cancelled == {}
    ensures s.threads.Keys == {0, 1} && s.threads[1] == Send(Waiting(0), NOTHING_YET)
    ensures s.threads[0].Send? && s.threads[0].pc == MarkingFailed(BROKEN)
  {
    s := FirstSendGivesUp();
    s := Then(s, Run(0, Auto));
    assert s.threads[0].pc == Uncounting(BROKEN, true);
    s := Then(s, Run(0, Auto));
  }

  lemma FirstSendGone() returns (s: State)
    ensures Reachable(s)
    ensures s.g.core == EMPTY.core.(state := Failed, lastErr := Some(BROKEN), wg := 1) && s.g.cancelled == {}
    ensures s.threads.Keys == {0, 1} && s.threads[1] == Send(Waiting(0), NOTHING_YET)
    ensures s.threads[0].Send? && s.threads[0].pc == Returned(Some(BROKEN))
  {
    s := FirstSendDiscards();
    s := Then(s, Run(0, Auto));
    assert s.threads[0].pc == Leaving(Some(BROKEN));
    s := Then(s, Run(0, Auto));
  }

  /** `close`, begun after the discard, leaves the waiting send stranded. */
  lemma CloseStrands(s: State)
    requires s.g.core == EMPTY.core.(state := Failed, lastErr := Some(BROKEN), wg := 1) && s.g.cancelled == {}
    requires s.threads.Keys == {0, 1} && s.threads[1] == Send(Waiting(0), NOTHING_YET)
    requires s.threads[0].Send? && s.threads[0].pc == Returned(Some(BROKEN))
    ensures Next(s, Call(2, Close(Beginning))).Some?
    ensures var s1 := Next(s, Call(2, Close(Beginning))).value;
      && Next(s1, Run(2, Auto)).Some?
      && var s2 := Next(s1, Run(2, Auto)).value;
         Stranded(s2, 1) && s2.g.core.pool == [] && 2 in s2.threads && s2.threads[2] == Close(AwaitingSends(0))
  {
    var s2 := Next(Next(s, Call(2, Close(Beginning))).value, Run(2, Auto)).value;
    assert s2.threads.Keys == {0, 1, 2};
    forall u | u in s2.threads ensures !Productive(s2, u) {
      assert u == 0 || u == 1 || u == 2;
    }
  }

  /** With one connection, a second send waits for the first; the first loses its
      connection and discards it; then `close` begins. The second send waits for a
      connection that cannot come, and `close` waits for the second send. */
  lemma SendCanBeStranded() returns (s: State)
    ensures Reachable(s) && Stranded(s, 1) && s.g.core.pool == []
    ensures 2 in s.threads && s.threads[2] == Close(AwaitingSends(0))
  {
    s := FirstSendGone();
    CloseStrands(s);
    s := Then(s, Call(2, Close(Beginning)));
    s := Then(s, Run(2, Auto));
  }

  /** A probe of an open sender that has only ever been dialled. */
  lemma ProbeOfDialling(s: State, t: Tid, snap: Snapshot) returns (steps: seq<Step>, s': State)
    requires t !in s.threads && s.g.core.pool == [] && s.g.core.poolMu.None?
    requires snap == Snapshot(s.g.core.created, s.g.core.closed, s.g.core.state, s.g.core.lastErr)
    requires !snap.closed && snap.state == Unknown && snap.created != 0
    ensures Along(Next, s, steps, s')
    ensures t in s'.threads && s'.threads[t] == Probe(Answered(snap, Alive)) && s'.g.conn == s.g.conn
  {
    steps, s' := [], s;
    steps, s' := Append(Next, s, steps, s', Call(t, Probe(Snapping)));
    steps, s' := Append(Next, s, steps, s', Run(t, Auto));
    assert s'.threads[t] == Probe(WantingMu(snap));
    steps, s' := Append(Next, s, steps, s', Run(t, Auto));
    assert s'.threads[t] == Probe(Peeking(snap));
    steps, s' := Append(Next, s, steps, s', Run(t, Auto));
    assert s'.threads[t] == Probe(Unlocking(snap, Alive));
    steps, s' := Append(Next, s, steps, s', Run(t, Auto));
  }

  /** While the first send still dials, the sender has never connected, and a probe
      reports it alive. */
  lemma UnknownReportedAlive() returns (s: State)
    ensures Reachable(s) && s.g.conn == []
    ensures 1 in s.threads && s.threads[1] == Probe(Answered(Snapshot(1, false, Unknown, None), Alive))
  {
    var dialling := FirstSendDials();
    var steps;
    steps, s := ProbeOfDialling(dialling, 1, Snapshot(1, false, Unknown, None));
    ReachableExec(dialling, steps);
  }

  /** Exactly when: a probe that saw StateUnknown answers alive if and only if the
      sender was open with a connection counted. */
  lemma UnknownAliveIff(s: State, t: Tid)
    requires Reachable(s) && t in s.threads && s.threads[t].Probe? && s.threads[t].pp.Answered?
    requires s.threads[t].pp.snap.state == Unknown
    ensures s.threads[t].pp.answer == Alive <==> !s.threads[t].pp.snap.closed && s.threads[t].pp.snap.created != 0
  {
    ProbeAnswersSnapshot(s, t);
  }
}
