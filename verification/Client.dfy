/** Client shutdown: closers registered by components, run once by the first Close. */
module Client {
  import opened Errors
  import opened Runs

  /** A registered cleanup function, by name. */
  type Closer = nat
  type Tid = nat

  /** `errors.Join`: nil when there is nothing to join. */
  function Join(errs: seq<Error>): Option<Error> {
    if errs == [] then None else Some(Wrap(errs))
  }

  /** The errors among the results of closers, in the order they ran. */
  function Failures(results: seq<Option<Error>>): (errs: seq<Error>)
    ensures errs == [] <==> forall i :: 0 <= i < |results| ==> results[i].None?
  {
    if results == [] then []
    else
      var last := results[|results| - 1];
      Failures(results[..|results| - 1]) + if last.Some? then [last.value] else []
  }

  /** How many of the results are errors. */
  function Count(results: seq<Option<Error>>): nat {
    if results == [] then 0 else Count(results[..|results| - 1]) + if results[|results| - 1].Some? then 1 else 0
  }

  /** Every error is there, once, and in order. */
  lemma {:induction false} FailuresInOrder(results: seq<Option<Error>>)
    ensures |Failures(results)| == Count(results)
    ensures forall i :: 0 <= i < |results| && results[i].Some? ==>
              Count(results[..i]) < Count(results) && Failures(results)[Count(results[..i])] == results[i].value
  {
    if results != [] {
      var rest := results[..|results| - 1];
      FailuresInOrder(rest);
      forall i | 0 <= i < |results| && results[i].Some?
        ensures Count(results[..i]) < Count(results) && Failures(results)[Count(results[..i])] == results[i].value
      {
        if i < |results| - 1 {
          assert rest[..i] == results[..i] && rest[i] == results[i];
        }
      }
    }
  }

  /** So the joined error holds the error of every closer that failed, in the order they
      ran, and nothing else; and there is none when none failed. */
  lemma JoinHoldsAll(results: seq<Option<Error>>)
    ensures Join(Failures(results)).None? <==> Count(results) == 0
    ensures Count(results) > 0 ==>
      var joined := Join(Failures(results)).value;
      && joined.Wrap? && |joined.children| == Count(results)
      && forall i :: 0 <= i < |results| && results[i].Some? ==>
           Count(results[..i]) < Count(results) && joined.children[Count(results[..i])] == results[i].value
  {
    FailuresInOrder(results);
  }

  function Reverse<T>(s: seq<T>): (r: seq<T>)
    ensures |r| == |s| && forall i :: 0 <= i < |s| ==> r[i] == s[|s| - 1 - i]
  {
    seq(|s|, i requires 0 <= i < |s| => s[|s| - 1 - i])
  }

  class Client {
    var closed: bool
    var closers: seq<Closer>

    constructor ()
      ensures !closed && closers == []
    {
      closed, closers := false, [];
    }

    method Register(f: Closer)
      modifies this
      ensures closers == old(closers) + [f] && closed == old(closed)
    {
      closers := closers + [f];
    }

    /** `Close`, called with the result each closer will have. */
    method Close(result: Closer -> Option<Error>) returns (err: Option<Error>, ran: seq<Closer>)
      modifies this
      ensures closed
      ensures old(closed) ==> err.None? && ran == [] && closers == old(closers)
      ensures !old(closed) ==> closers == [] && ran == Reverse(old(closers))
      ensures !old(closed) ==> err == Join(Failures(seq(|ran|, i requires 0 <= i < |ran| => result(ran[i]))))
    {
      if closed {
        return None, [];
      }
      closed := true;
      var list := closers;
      closers := [];
      var errs: seq<Error> := [];
      ran := [];
      ghost var results := [];
      for i := |list| downto 0
        invariant ran == Reverse(list)[..|list| - i]
        invariant results == seq(|ran|, i requires 0 <= i < |ran| => result(ran[i]))
        invariant errs == Failures(results)
      {
        var e := result(list[i]);
        ran := ran + [list[i]];
        results := results + [e];
        assert results[..|results| - 1] + [e] == results;
        if e.Some? {
          errs := errs + [e.value];
        }
      }
      assert ran == Reverse(list);
      err := Join(errs);
    }
  }

  // -------------------------------------------------------- all interleavings

  datatype ClosePc =
    | Running(left: nat)                    // closers still to run, the last of them next
    | Returned(err: Option<Error>)

  datatype State = State(
    closed: bool,
    closers: seq<Closer>,
    registered: seq<Closer>,                // every closer ever registered, in order
    calls: map<Tid, ClosePc>,
    winner: Option<Tid>,                    // the Close that found the client open
    batch: seq<Closer>,                     // the list it took
    ran: seq<nat>,                          // closers run so far, by position in `registered`
    results: seq<Option<Error>>)

  const INIT := State(false, [], [], map[], None, [], [], [])

  datatype Step =
    | Register(f: Closer)
    | CallClose(t: Tid)
    | RunCloser(t: Tid, result: Option<Error>)
    | Return(t: Tid)

  function Next(s: State, step: Step): Option<State> {
    match step
    case Register(f) => Some(s.(closers := s.closers + [f], registered := s.registered + [f]))
    case CallClose(t) =>
      if t in s.calls then None
      else if s.closed then Some(s.(calls := s.calls[t := Returned(None)]))
      else Some(s.(closed := true, closers := [], winner := Some(t), batch := s.closers,
                   calls := s.calls[t := Running(|s.closers|)]))
    case RunCloser(t, result) =>
      if t in s.calls && s.calls[t].Running? && 0 < s.calls[t].left <= |s.batch| then
        Some(s.(ran := s.ran + [s.calls[t].left - 1], results := s.results + [result],
                calls := s.calls[t := Running(s.calls[t].left - 1)]))
      else None
    case Return(t) =>
      if t in s.calls && s.calls[t] == Running(0) then
        Some(s.(calls := s.calls[t := Returned(Join(Failures(s.results)))]))
      else None
  }

  /** The closers of the winner run from the last one registered down. */
  ghost predicate Downward(ran: seq<nat>, n: nat) {
    |ran| <= n && forall i :: 0 <= i < |ran| ==> ran[i] == n - 1 - i
  }

  ghost predicate Inv(s: State) {
    && |s.results| == |s.ran|
    && (s.closed <==> s.winner.Some?)
    && s.registered == s.batch + s.closers
    && Downward(s.ran, |s.batch|)
    && (!s.closed ==> s.calls == map[] && s.ran == [] && s.batch == [])
    && (s.closed ==>
          var w := s.winner.value;
          && w in s.calls
          && (forall t :: t in s.calls && t != w ==> s.calls[t] == Returned(None))
          && (match s.calls[w]
              case Running(left) => |s.ran| + left == |s.batch|
              case Returned(err) => |s.ran| == |s.batch| && err == Join(Failures(s.results))))
  }

  lemma NextKeepsInv(s: State, step: Step)
    requires Inv(s) && Next(s, step).Some?
    ensures Inv(Next(s, step).value)
  {
    match step
    case Register(f) => assert s.registered + [f] == s.batch + (s.closers + [f]);
    case CallClose(_) =>
    case RunCloser(_, _) =>
    case Return(_) =>
  }

  lemma InvHolds(s: State)
    requires Reaches(Next, INIT, s)
    ensures Inv(s)
  {
    forall s, step | Inv(s) && Next(s, step).Some?
      ensures Inv(Next(s, step).value)
    {
      NextKeepsInv(s, step);
    }
    ReachesKeeps(Next, Inv, INIT, s);
  }

  /** Whatever is registered and closed concurrently: of all the closers registered,
      exactly the first |batch| belong to the winning Close; they run from the last one
      down, each at most once, each exactly once by the time it returns; its result is
      non-nil exactly when one of them failed; every other Close returns nil. */
  lemma CloseContract(s: State, t: Tid)
    requires Reaches(Next, INIT, s) && t in s.calls
    ensures s.winner.Some? && s.registered == s.batch + s.closers
    ensures |s.ran| <= |s.batch| && forall i :: 0 <= i < |s.ran| ==> s.ran[i] == |s.batch| - 1 - i
    ensures s.winner != Some(t) ==> s.calls[t] == Returned(None)
    ensures s.winner == Some(t) && s.calls[t].Returned? ==>
      && (forall p: nat :: p < |s.batch| <==> p in s.ran)
      && (s.calls[t].err.Some? <==> exists i :: 0 <= i < |s.results| && s.results[i].Some?)
  {
    InvHolds(s);
    if s.winner == Some(t) && s.calls[t].Returned? {
      forall p: nat | p < |s.batch| ensures p in s.ran {
        assert s.ran[|s.batch| - 1 - p] == p;
      }
    }
  }

  lemma {:induction false} BatchStays(s: State, steps: seq<Step>)
    requires Inv(s) && s.closed && Exec(Next, s, steps).Some?
    ensures var s' := Exec(Next, s, steps).value;
      Inv(s') && s'.closed && s'.batch == s.batch && s'.winner == s.winner && |s.ran| <= |s'.ran|
    decreases |steps|
  {
    if steps != [] {
      NextKeepsInv(s, steps[0]);
      BatchStays(Next(s, steps[0]).value, steps[1..]);
    }
  }

  /** Take the moment a Close wins: on every continuation its batch is what was
      registered by then, no closer registered later ever runs, and all of those are
      still in the client's list. */
  lemma LateClosersNeverRun(s: State, t: Tid, steps: seq<Step>)
    requires Reaches(Next, INIT, s) && !s.closed && Next(s, CallClose(t)).Some?
    requires Exec(Next, Next(s, CallClose(t)).value, steps).Some?
    ensures var s' := Exec(Next, Next(s, CallClose(t)).value, steps).value; var n := |s.registered|;
      && s'.winner == Some(t) && s'.batch == s.registered && s.registered <= s'.registered
      && s'.closers == s'.registered[n..]
      && forall p :: p in s'.ran ==> p < n
  {
    InvHolds(s);
    NextKeepsInv(s, CallClose(t));
    assert s.registered == s.closers;
    BatchStays(Next(s, CallClose(t)).value, steps);
  }

  /** The winner finishes on its own: from any reachable state as many steps as
      closers are left, and one more, complete it, whatever the closers return. */
  lemma {:induction false} WinnerFinishes(s: State, t: Tid, results: seq<Option<Error>>) returns (steps: seq<Step>)
    requires Inv(s) && s.winner == Some(t) && t in s.calls && s.calls[t] == Running(|results|)
    ensures Exec(Next, s, steps).Some? && |steps| == |results| + 1
    ensures var s' := Exec(Next, s, steps).value;
      t in s'.calls && s'.calls[t] == Returned(Join(Failures(s.results + results))) && |s'.ran| == |s.batch|
    decreases |results|
  {
    if results == [] {
      steps := [Return(t)];
      OneStep(Next, s, Return(t));
      assert s.results + results == s.results;
    } else {
      var step := RunCloser(t, results[0]);
      var s' := Next(s, step).value;
      NextKeepsInv(s, step);
      assert s'.results + results[1..] == s.results + results;
      steps := WinnerFinishes(s', t, results[1..]);
      steps := [step] + steps;
    }
  }

  // --------------------------------------------------------------- second Close

  /** A second Close returns nil while the first still has a closer to run. */
  lemma SecondCloseReturnsEarly() returns (s: State)
    ensures Reaches(Next, INIT, s)
    ensures 0 in s.calls && s.calls[0] == Running(1) && 1 in s.calls && s.calls[1] == Returned(None)
  {
    ReachesItself(Next, INIT);
    s := Extend(Next, INIT, INIT, Register(0));
    s := Extend(Next, INIT, s, CallClose(0));
    s := Extend(Next, INIT, s, CallClose(1));
  }

  /** Close call t, begun in state s, has returned after these further steps. */
  ghost predicate ReturnedAfter(s: State, t: Tid, steps: seq<Step>) {
    && Exec(Next, s, [CallClose(t)] + steps).Some?
    && var s' := Exec(Next, s, [CallClose(t)] + steps).value;
       t in s'.calls && s'.calls[t].Returned?
  }

  ghost predicate AllRan(s: State) {
    |s.ran| == |s.batch|
  }

  lemma CallFirst(s: State, t: Tid, steps: seq<Step>)
    requires Exec(Next, s, [CallClose(t)] + steps).Some?
    ensures Next(s, CallClose(t)).Some?
    ensures Exec(Next, s, [CallClose(t)] + steps) == Exec(Next, Next(s, CallClose(t)).value, steps)
  {
    var all := [CallClose(t)] + steps;
    assert all[0] == CallClose(t) && all[1..] == steps;
  }

  /** Exactly when: a Close is sure to return only after every closer has run if and only
      if it finds the client open, or finds that the closers of the Close that won have
      all run already. */
  lemma CloseWaitsIff(s: State, t: Tid)
    requires Reaches(Next, INIT, s) && t !in s.calls
    ensures (forall steps :: ReturnedAfter(s, t, steps) ==> AllRan(Exec(Next, s, [CallClose(t)] + steps).value))
            <==> !s.closed || AllRan(s)
  {
    InvHolds(s);
    if !s.closed || AllRan(s) {
      forall steps | ReturnedAfter(s, t, steps)
        ensures AllRan(Exec(Next, s, [CallClose(t)] + steps).value)
      {
        CallFirst(s, t, steps);
        NextKeepsInv(s, CallClose(t));
        BatchStays(Next(s, CallClose(t)).value, steps);
      }
    } else {
      OneStep(Next, s, CallClose(t));
      assert [CallClose(t)] + [] == [CallClose(t)];
      assert ReturnedAfter(s, t, []);
    }
  }
}
