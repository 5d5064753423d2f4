/** The objects behind Client.Health other than the sender: listener slots,
    request-reply clients and the aggregation. */
module Health {
  import opened Errors
  import opened ConnectionStates

  datatype Status = Status(alive: bool, reason: Reason)

  datatype Reason = NoReason | ClientIsClosed | ListenerClosed | RequestReplyClosed | InState(st: ConnectionState)
                  | FailedWith(err: Error)

  // ---------------------------------------------------------------- listener

  datatype StartVerdict = Go | RefusedClosed | RefusedStarted

  /** What Start finds in its critical section. */
  function Admission(closed: bool, started: bool): StartVerdict {
    if closed then RefusedClosed else if started then RefusedStarted else Go
  }

  /** One consumer's entry. */
  function ConsumerStatus(st: ConnectionState, closed: bool): Status {
    if closed then Status(false, ListenerClosed)
    else if st == Connected then Status(true, NoReason)
    else Status(false, InState(st))
  }

  /** A consumer's store into a slot. */
  datatype Store = Store(idx: int, st: ConnectionState)

  function Stored(states: seq<ConnectionState>, store: Store): (r: seq<ConnectionState>)
    ensures |r| == |states|
  {
    if 0 <= store.idx < |states| then states[store.idx := store.st] else states
  }

  function AllStored(states: seq<ConnectionState>, stores: seq<Store>): (r: seq<ConnectionState>)
    ensures |r| == |states|
  {
    if stores == [] then states else Stored(AllStored(states, stores[..|stores| - 1]), stores[|stores| - 1])
  }

  /** The slots after the stores of the first n moments. */
  function After(states: seq<ConnectionState>, stores: nat -> seq<Store>, n: nat): (r: seq<ConnectionState>)
    ensures |r| == |states|
  {
    if n == 0 then states else AllStored(After(states, stores, n - 1), stores(n - 1))
  }

  /** The Listener's flag and its consumers' slots, an array they write in place. */
  class Listener {
    var closed: bool
    const states: array<ConnectionState>

    constructor (concurrency: nat)
      ensures !closed && fresh(states)
      ensures states.Length == concurrency && forall i :: 0 <= i < concurrency ==> states[i] == Unknown
    {
      closed := false;
      states := new ConnectionState[concurrency](_ => Unknown);
    }

    /** An index out of range is ignored. */
    method SetConsumerState(store: Store)
      modifies states
      ensures states[..] == Stored(old(states[..]), store)
      ensures forall i :: 0 <= i < states.Length ==> states[i] == if i == store.idx then store.st else old(states[i])
    {
      if 0 <= store.idx < states.Length {
        states[store.idx] := store.st;
      }
    }

    /** One entry per consumer, while the consumers go on: `stores(i)` happen before slot
        i is loaded. Each entry is alive exactly when, at the moment of its load, its slot
        said Connected, and the listener was open. */
    method Probe(stores: nat -> seq<Store>) returns (details: seq<Status>)
      modifies states
      ensures |details| == states.Length
      ensures forall i :: 0 <= i < |details| ==>
        var seen := After(old(states[..]), stores, i + 1)[i];
        && (details[i].alive <==> !closed && seen == Connected)
        && details[i].reason == if closed then ListenerClosed else if seen == Connected then NoReason else InState(seen)
      ensures states[..] == After(old(states[..]), stores, states.Length)
    {
      details := [];
      for i := 0 to states.Length
        invariant |details| == i && states[..] == After(old(states[..]), stores, i)
        invariant forall k :: 0 <= k < i ==> details[k] == ConsumerStatus(After(old(states[..]), stores, k + 1)[k], closed)
      {
        for j := 0 to |stores(i)|
          invariant states[..] == AllStored(After(old(states[..]), stores, i), stores(i)[..j])
        {
          assert stores(i)[..j + 1][..j] == stores(i)[..j];
          SetConsumerState(stores(i)[j]);
        }
        assert stores(i)[..|stores(i)|] == stores(i);
        details := details + [ConsumerStatus(states[..][i], closed)];
      }
    }
  }

  lemma {:induction false} UntouchedByAll(states: seq<ConnectionState>, stores: seq<Store>, i: nat)
    requires i < |states| && forall j :: 0 <= j < |stores| ==> stores[j].idx != i
    ensures AllStored(states, stores)[i] == states[i]
  {
    if stores != [] {
      UntouchedByAll(states, stores[..|stores| - 1], i);
    }
  }

  /** A slot that no consumer writes during the probe is reported as it was at its start. */
  lemma {:induction false} UntouchedSlot(states: seq<ConnectionState>, stores: nat -> seq<Store>, n: nat, i: nat)
    requires i < |states|
    requires forall k: nat, j :: k < n && 0 <= j < |stores(k)| ==> stores(k)[j].idx != i
    ensures After(states, stores, n)[i] == states[i]
  {
    if n > 0 {
      UntouchedSlot(states, stores, n - 1, i);
      UntouchedByAll(After(states, stores, n - 1), stores(n - 1), i);
    }
  }

  // ----------------------------------------------------------- request-reply

  /** How one RequestReply call ended once it was past its checks. */
  datatype CallEnd = DialFailed(err: Error) | Replied | Erred(err: Error)

  /** The state recorded for a call: a timeout anywhere in the error, or no connection
      error in it, means the connection worked. */
  function Recorded(end: CallEnd): (ConnectionState, Option<Error>) {
    match end
    case DialFailed(e) => (Failed, Some(e))
    case Replied => (Connected, None)
    case Erred(e) => if HasKind(e, Timeout) || !IsConnectionError(e) then (Connected, None) else (Failed, Some(e))
  }

  class RequestReplyClient {
    var closed: bool
    var state: ConnectionState
    var lastErr: Option<Error>
    ghost var ends: seq<CallEnd>        // calls recorded so far

    /** The recorded state is that of the last call. */
    ghost predicate Valid()
      reads this
    {
      (state, lastErr) == if ends == [] then (Unknown, None) else Recorded(ends[|ends| - 1])
    }

    constructor ()
      ensures Valid() && !closed && ends == []
    {
      closed, state, lastErr, ends := false, Unknown, None, [];
    }

    method RecordState(end: CallEnd)
      requires Valid()
      modifies this
      ensures Valid() && ends == old(ends) + [end] && closed == old(closed)
    {
      var (st, e) := Recorded(end);
      state, lastErr, ends := st, e, ends + [end];
    }

    method Close()
      requires Valid()
      modifies `closed
      ensures Valid() && closed
    {
      closed := true;
    }

    /** Nothing before the first call; afterwards alive exactly when the last call
        neither failed to dial nor met a connection error. */
    method Probe() returns (details: seq<Status>)
      requires Valid()
      ensures details == [] <==> !closed && ends == []
      ensures closed ==> details == [Status(false, RequestReplyClosed)]
      ensures !closed && ends != [] ==>
        match ends[|ends| - 1]
        case Replied => details == [Status(true, NoReason)]
        case DialFailed(e) => details == [Status(false, FailedWith(e))]
        case Erred(e) =>
          details == if HasKind(e, Timeout) || !IsConnectionError(e) then [Status(true, NoReason)]
                     else [Status(false, FailedWith(e))]
    {
      if closed {
        return [Status(false, RequestReplyClosed)];
      }
      if state == Unknown && lastErr.None? {
        return [];
      }
      if state == Failed {
        return [Status(false, if lastErr.Some? then FailedWith(lastErr.value) else InState(Failed))];
      }
      details := [Status(true, NoReason)];
    }
  }

  // ------------------------------------------------------------- aggregation

  function Flatten(probes: seq<seq<Status>>): seq<Status> {
    if probes == [] then [] else Flatten(probes[..|probes| - 1]) + probes[|probes| - 1]
  }

  /** The entries of one prober after those of another, and nothing else. */
  lemma {:induction false} FlattenConcatenates(a: seq<seq<Status>>, b: seq<seq<Status>>)
    ensures Flatten(a + b) == Flatten(a) + Flatten(b)
    decreases |b|
  {
    if b == [] {
      assert a + b == a;
    } else {
      assert (a + b)[..|a + b| - 1] == a + b[..|b| - 1];
      FlattenConcatenates(a, b[..|b| - 1]);
    }
  }

  lemma FlattenOfOne(probe: seq<Status>)
    ensures Flatten([probe]) == probe && Flatten([]) == []
  {
    assert [probe][..0] == [];
  }

  /** Client.Health: all entries in registration order, the client's own first when it
      is closed, and healthy exactly when every entry is alive. */
  method Aggregate(closed: bool, probes: seq<seq<Status>>) returns (healthy: bool, details: seq<Status>)
    ensures details == (if closed then [Status(false, ClientIsClosed)] else []) + Flatten(probes)
    ensures healthy <==> forall i :: 0 <= i < |details| ==> details[i].alive
    ensures closed ==> !healthy
  {
    details := [];
    for i := 0 to |probes|
      invariant details == Flatten(probes[..i])
    {
      assert probes[..i + 1][..i] == probes[..i];
      details := details + probes[i];
    }
    assert probes[..|probes|] == probes;
    if closed {
      details := [Status(false, ClientIsClosed)] + details;
      assert !details[0].alive;
    }
    healthy := true;
    var i := 0;
    while i < |details| && healthy
      invariant 0 <= i <= |details|
      invariant healthy ==> forall k :: 0 <= k < i ==> details[k].alive
      invariant !healthy ==> exists k :: 0 <= k < |details| && !details[k].alive
    {
      if !details[i].alive {
        healthy := false;
      }
      i := i + 1;
    }
  }
}
