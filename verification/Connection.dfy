/** One IBM MQ connection: dialling, and the two retry loops over it. */
module ConnectionRetry {
  import opened Errors
  import opened ConnectionStates
  import opened Backoff
  import opened Counting
  import opened Numbers

  /** What the environment does during one retry loop. Attempt k dials with result
      `dial(k)` (None is success). The loop looks at its context at moments 0, 1, 2, …:
      moment 2k is the check at the top of attempt k and moment 2k+1 the sleep after
      it, and from moment `doneAt` on the context is done. A sleep the context cuts
      short has lasted `waited(k)`, or its whole timer if that is shorter. */
  datatype Env = Env(
    dial: nat -> Option<Error>, doneAt: Option<nat>, jitter: nat -> int, junk: nat -> int64, waited: nat -> nat)

  predicate Done(env: Env, moment: nat) {
    env.doneAt.Some? && env.doneAt.value <= moment
  }

  datatype Event = Dialled | DialFailed(err: Error) | Slept(timer: int64) | Interrupted(elapsed: int)

  datatype End = Success | Cancelled | Exhausted(last: Error)

  datatype Outcome = Outcome(log: seq<Event>, end: End)

  function Attempts(cfg: Config): (n: nat)
    ensures n == Max(1, cfg.maxRetries)
  {
    if cfg.maxRetries < 1 then 1 else cfg.maxRetries
  }

  function SleepAfter(env: Env, cfg: Config, k: nat): int64 {
    Timer(RetryDelay(cfg, k, env.junk(k)), env.jitter(k))
  }

  /** The part of the sleep after attempt k that passed before the context ended. */
  function ElapsedAfter(env: Env, cfg: Config, k: nat): int {
    Min(env.waited(k), Max(0, SleepAfter(env, cfg, k)))
  }

  function After(first: seq<Event>, rest: Outcome): Outcome {
    Outcome(first + rest.log, rest.end)
  }

  /** The dial schedule from attempt k on. */
  function Schedule(env: Env, cfg: Config, k: nat): Outcome
    requires k < Attempts(cfg)
    decreases Attempts(cfg) - k
  {
    if Done(env, 2 * k) then Outcome([], Cancelled)
    else match env.dial(k)
      case None => Outcome([Dialled], Success)
      case Some(e) =>
        if k == Attempts(cfg) - 1 then Outcome([DialFailed(e)], Exhausted(e))
        else if Done(env, 2 * k + 1) then Outcome([DialFailed(e), Interrupted(ElapsedAfter(env, cfg, k))], Cancelled)
        else After([DialFailed(e), Slept(SleepAfter(env, cfg, k))], Schedule(env, cfg, k + 1))
  }

  /** One attempt of a loop that has logged `log` so far. */
  lemma OneAttempt(env: Env, cfg: Config, k: nat, log: seq<Event>)
    requires k < Attempts(cfg)
    ensures var o := After(log, Schedule(env, cfg, k));
      if Done(env, 2 * k) then o == Outcome(log, Cancelled)
      else if env.dial(k).None? then o == Outcome(log + [Dialled], Success)
      else
        var log' := log + [DialFailed(env.dial(k).value)];
        if k == Attempts(cfg) - 1 then o == Outcome(log', Exhausted(env.dial(k).value))
        else if Done(env, 2 * k + 1) then o == Outcome(log' + [Interrupted(ElapsedAfter(env, cfg, k))], Cancelled)
        else o == After(log' + [Slept(SleepAfter(env, cfg, k))], Schedule(env, cfg, k + 1))
  {
    assert log + [] == log;
    if env.dial(k).Some? {
      var e := env.dial(k).value;
      var cut := Interrupted(ElapsedAfter(env, cfg, k));
      assert log + [DialFailed(e), cut] == log + [DialFailed(e)] + [cut];
      if k < Attempts(cfg) - 1 {
        var rest := Schedule(env, cfg, k + 1).log;
        var t := SleepAfter(env, cfg, k);
        assert log + ([DialFailed(e), Slept(t)] + rest) == log + [DialFailed(e)] + [Slept(t)] + rest;
      }
    }
  }

  /** The error of a failed dial, as `dial` wraps it. */
  function DialError(e: Error): Error {
    Wrap([Sanitize(e)])
  }

  function EndError(end: End): Option<Error> {
    match end
    case Success => None
    case Cancelled => Some(Plain(Errors.Kind.Context))
    case Exhausted(e) => Some(Wrap([Plain(ConnectionFailed), DialError(e)]))
  }

  /** The state a connection is left in when its Reconnect ends. */
  function StateAfter(o: Outcome): ConnectionState {
    match o.end
    case Success => Connected
    case Exhausted(_) => Failed
    case Cancelled => if o.log == [] then Reconnecting else Failed
  }

  class Connection {
    const config: Config
    var state: ConnectionState
    var lastError: Option<Error>
    var discs: nat                      // disconnects of the old handle

    constructor (config: Config)
      ensures this.config == config && state == Reconnecting && lastError == None && discs == 0
    {
      this.config := config;
      state, lastError, discs := Reconnecting, None, 0;
    }

    /** `dial`, with the queue manager's answer. */
    method Dial(answer: Option<Error>) returns (err: Option<Error>)
      modifies `state, `lastError
      ensures state == if answer.None? then Connected else Failed
      ensures lastError == answer
      ensures err == if answer.None? then None else Some(DialError(answer.value))
    {
      lastError := answer;
      if answer.Some? {
        state := Failed;
        return Some(DialError(answer.value));
      }
      state := Connected;
      err := None;
    }

    /** One round of Reconnect's loop: the check, the disconnect, the dial, the sleep. */
    method Attempt(env: Env, k: nat, before: seq<Event>) returns (log: seq<Event>, end: Option<End>)
      requires k < Attempts(config)
      modifies this
      ensures end.Some? ==> Outcome(log, end.value) == After(before, Schedule(env, config, k))
      ensures end.None? ==>
        && k + 1 < Attempts(config) && !Done(env, 2 * k) && env.dial(k).Some? && log != []
        && After(log, Schedule(env, config, k + 1)) == After(before, Schedule(env, config, k))
      ensures end.Some? ==> Stops(env, config, k)
      ensures end.Some? && end.value.Exhausted? ==> k == Attempts(config) - 1
      ensures if Done(env, 2 * k) then
                log == before && state == old(state) && lastError == old(lastError) && discs == old(discs)
              else
                && log != [] && state == (if env.dial(k).None? then Connected else Failed)
                && lastError == env.dial(k) && discs == old(discs) + 1
    {
      OneAttempt(env, config, k, before);
      if Done(env, 2 * k) {
        return before, Some(Cancelled);
      }
      discs := discs + 1;
      var failure := Dial(env.dial(k));
      if failure.None? {
        return before + [Dialled], Some(Success);
      }
      log := before + [DialFailed(env.dial(k).value)];
      if k == Attempts(config) - 1 {
        return log, Some(Exhausted(env.dial(k).value));
      }
      var delay := CappedDelay(config, k, env.junk(k));
      var timer := Timer(delay, env.jitter(k));
      if Done(env, 2 * k + 1) {
        return log + [Interrupted(Min(env.waited(k), Max(0, timer)))], Some(Cancelled);
      }
      log, end := log + [Slept(timer)], None;
    }

    /** Rounds until one of them is the last; k is its number. */
    method Rounds(env: Env) returns (k: nat, log: seq<Event>, end: End)
      modifies this
      ensures k < Attempts(config) && Tried(env, k) && Stops(env, config, k)
      ensures Outcome(log, end) == Schedule(env, config, 0)
      ensures k == 0 && Done(env, 0) ==> state == old(state) && lastError == old(lastError) && discs == old(discs)
      ensures !(k == 0 && Done(env, 0)) ==>
        var last := if Done(env, 2 * k) then k - 1 else k;
        && state == (if env.dial(last).None? then Connected else Failed)
        && lastError == env.dial(last) && discs == old(discs) + last + 1 && log != []
    {
      log, k := [], 0;
      while true
        invariant k < Attempts(config) && Tried(env, k)
        invariant After(log, Schedule(env, config, k)) == Schedule(env, config, 0)
        invariant k == 0 ==> state == old(state) && lastError == old(lastError) && discs == old(discs) && log == []
        invariant k > 0 ==> state == Failed && lastError == env.dial(k - 1) && discs == old(discs) + k && log != []
        decreases Attempts(config) - k
      {
        var stop;
        log, stop := Attempt(env, k, log);
        if stop.Some? {
          return k, log, stop.value;
        }
        k := k + 1;
      }
    }

    /** Runs the schedule on this connection: one disconnect before each dial, and the
        last dial's answer on record. */
    method Reconnect(env: Env) returns (err: Option<Error>, log: seq<Event>)
      modifies this
      ensures var o := Schedule(env, config, 0);
              log == o.log && err == EndError(o.end) && state == StateAfter(o)
      ensures var n := Dials(Schedule(env, config, 0).log);
              discs == old(discs) + n && lastError == if n == 0 then old(lastError) else env.dial(n - 1)
    {
      state := Reconnecting;
      var k, end;
      k, log, end := Rounds(env);
      DialsAtStop(env, config, k);
      ScheduleShape(env, config, 0);
      if end.Exhausted? {
        state := Failed;
      }
      err := EndError(end);
    }
  }

  /** One round of the loop below: the check, a dial of a fresh connection, the sleep. */
  method DialFresh(env: Env, cfg: Config, k: nat, before: seq<Event>)
    returns (conn: Connection?, log: seq<Event>, end: Option<End>)
    requires k < Attempts(cfg)
    ensures end.Some? ==> Outcome(log, end.value) == After(before, Schedule(env, cfg, k))
    ensures end.None? ==>
      k + 1 < Attempts(cfg) && After(log, Schedule(env, cfg, k + 1)) == After(before, Schedule(env, cfg, k))
    ensures conn != null <==> end == Some(Success)
    ensures conn != null ==> fresh(conn) && conn.state == Connected && conn.config == cfg
  {
    OneAttempt(env, cfg, k, before);
    if Done(env, 2 * k) {
      return null, before, Some(Cancelled);
    }
    var c := new Connection(cfg);
    var failure := c.Dial(env.dial(k));
    if failure.None? {
      return c, before + [Dialled], Some(Success);
    }
    conn, log := null, before + [DialFailed(env.dial(k).value)];
    if k == Attempts(cfg) - 1 {
      return null, log, Some(Exhausted(env.dial(k).value));
    }
    var delay := CappedDelay(cfg, k, env.junk(k));
    var timer := Timer(delay, env.jitter(k));
    if Done(env, 2 * k + 1) {
      return null, log + [Interrupted(Min(env.waited(k), Max(0, timer)))], Some(Cancelled);
    }
    log, end := log + [Slept(timer)], None;
  }

  /** `newConnectionWithRetry`: a fresh connection for every dial. */
  method NewConnectionWithRetry(env: Env, cfg: Config) returns (conn: Connection?, err: Option<Error>, log: seq<Event>)
    ensures var o := Schedule(env, cfg, 0); log == o.log && err == EndError(o.end)
    ensures conn != null <==> err.None?
    ensures conn != null ==> fresh(conn) && conn.state == Connected && conn.config == cfg
  {
    log := [];
    var k := 0;
    while true
      invariant k < Attempts(cfg) && After(log, Schedule(env, cfg, k)) == Schedule(env, cfg, 0)
      decreases Attempts(cfg) - k
    {
      var end;
      conn, log, end := DialFresh(env, cfg, k, log);
      if end.Some? {
        return conn, EndError(end.value), log;
      }
      k := k + 1;
    }
  }

  // ----------------------------------------------------------- the schedule

  predicate IsDial(e: Event) {
    e.Dialled? || e.DialFailed?
  }

  function Dials(log: seq<Event>): nat {
    if log == [] then 0 else (if IsDial(log[0]) then 1 else 0) + Dials(log[1..])
  }

  function Sleeps(log: seq<Event>): nat {
    if log == [] then 0 else (if log[0].Slept? then 1 else 0) + Sleeps(log[1..])
  }

  /** Sleeps begun: completed and interrupted ones. */
  function Pauses(log: seq<Event>): nat {
    if log == [] then 0 else One(Pause(log[0])) + Pauses(log[1..])
  }

  predicate Pause(e: Event) {
    e.Slept? || e.Interrupted?
  }

  lemma CountsOfTwo(a: Event, b: Event, rest: seq<Event>)
    ensures Dials([a, b] + rest) == (if IsDial(a) then 1 else 0) + (if IsDial(b) then 1 else 0) + Dials(rest)
    ensures Sleeps([a, b] + rest) == (if a.Slept? then 1 else 0) + (if b.Slept? then 1 else 0) + Sleeps(rest)
    ensures Pauses([a, b] + rest) == One(Pause(a)) + One(Pause(b)) + Pauses(rest)
  {
    assert ([a, b] + rest)[1..] == [b] + rest && ([b] + rest)[1..] == rest;
  }

  lemma CountsOfOne(a: Event)
    ensures Dials([a]) == (if IsDial(a) then 1 else 0) && Sleeps([a]) == (if a.Slept? then 1 else 0)
    ensures Pauses([a]) == One(Pause(a))
  {
    assert [a][1..] == [];
  }

  /** Attempts k to k+n-1 found the context alive at their check. */
  ghost predicate Alive(env: Env, k: nat, n: nat) {
    forall i :: k <= i < k + n ==> !Done(env, 2 * i)
  }

  ghost predicate AllFail(env: Env, k: nat, n: nat) {
    forall i :: k <= i < k + n ==> env.dial(i).Some?
  }

  /** The shape of every run of either loop from attempt k on, whatever the environment does. */
  ghost predicate Shape(env: Env, cfg: Config, k: nat, o: Outcome) {
    var n := Dials(o.log);
    && n <= Attempts(cfg) - k
    && Sleeps(o.log) <= n
    && Pauses(o.log) <= Attempts(cfg) - 1 - k
    && Alive(env, k, n)
    && match o.end
       case Success =>
         n >= 1 && Sleeps(o.log) == n - 1 && AllFail(env, k, n - 1) && env.dial(k + n - 1).None?
       case Exhausted(e) =>
         n == Attempts(cfg) - k && Sleeps(o.log) == n - 1 && AllFail(env, k, n) && env.dial(k + n - 1) == Some(e)
       case Cancelled =>
         k + n < Attempts(cfg) && Done(env, 2 * (k + n)) && AllFail(env, k, n)
  }

  lemma {:induction false} ScheduleShape(env: Env, cfg: Config, k: nat)
    requires k < Attempts(cfg)
    ensures Shape(env, cfg, k, Schedule(env, cfg, k))
    decreases Attempts(cfg) - k
  {
    if Done(env, 2 * k) {
    } else if env.dial(k).None? {
      CountsOfOne(Dialled);
    } else if k == Attempts(cfg) - 1 {
      CountsOfOne(DialFailed(env.dial(k).value));
    } else if Done(env, 2 * k + 1) {
      var cut := Interrupted(ElapsedAfter(env, cfg, k));
      CountsOfTwo(DialFailed(env.dial(k).value), cut, []);
      assert Schedule(env, cfg, k).log == [DialFailed(env.dial(k).value), cut] + [];
    } else {
      ScheduleShape(env, cfg, k + 1);
      ShapeBefore(env, cfg, k, SleepAfter(env, cfg, k), Schedule(env, cfg, k + 1));
    }
  }

  lemma ShapeBefore(env: Env, cfg: Config, k: nat, timer: int64, rest: Outcome)
    requires !Done(env, 2 * k) && env.dial(k).Some? && Shape(env, cfg, k + 1, rest)
    ensures Shape(env, cfg, k, After([DialFailed(env.dial(k).value), Slept(timer)], rest))
  {
    CountsOfTwo(DialFailed(env.dial(k).value), Slept(timer), rest.log);
    var n := Dials(rest.log);
    assert Alive(env, k, n + 1);
    if AllFail(env, k + 1, n) {
      assert AllFail(env, k, n + 1);
    }
  }

  /** The first k attempts found the context alive and failed to dial. */
  ghost predicate Tried(env: Env, k: nat) {
    Alive(env, 0, k) && AllFail(env, 0, k)
  }

  lemma DialsTried(env: Env, cfg: Config, k: nat)
    requires Tried(env, k) && k <= Attempts(cfg) && (k < Attempts(cfg) ==> Done(env, 2 * k))
    ensures Dials(Schedule(env, cfg, 0).log) == k
  {
    ScheduleShape(env, cfg, 0);
  }

  lemma DialsUntilSuccess(env: Env, cfg: Config, k: nat)
    requires Tried(env, k) && k < Attempts(cfg) && !Done(env, 2 * k) && env.dial(k).None?
    ensures Dials(Schedule(env, cfg, 0).log) == k + 1
  {
    ScheduleShape(env, cfg, 0);
  }

  /** Attempt k is the last one. */
  predicate Stops(env: Env, cfg: Config, k: nat) {
    Done(env, 2 * k) || env.dial(k).None? || k == Attempts(cfg) - 1 || Done(env, 2 * k + 1)
  }

  lemma DialsAtStop(env: Env, cfg: Config, k: nat)
    requires k < Attempts(cfg) && Tried(env, k) && Stops(env, cfg, k)
    ensures Dials(Schedule(env, cfg, 0).log) == if Done(env, 2 * k) then k else k + 1
  {
    if Done(env, 2 * k) {
      DialsTried(env, cfg, k);
    } else if env.dial(k).None? {
      DialsUntilSuccess(env, cfg, k);
    } else {
      assert Tried(env, k + 1);
      DialsTried(env, cfg, k + 1);
    }
  }

  /** A loop connects exactly when some attempt within the limit succeeds after
      failures only, with the context still alive at its check. */
  lemma ConnectsIff(env: Env, cfg: Config)
    ensures Schedule(env, cfg, 0).end == Success <==>
            exists k: nat :: k < Attempts(cfg) && AllFail(env, 0, k) && env.dial(k).None? && !Done(env, 2 * k)
  {
    ScheduleShape(env, cfg, 0);
    var o := Schedule(env, cfg, 0);
    var n := Dials(o.log);
    if o.end == Success {
      assert AllFail(env, 0, n - 1) && env.dial(n - 1).None? && !Done(env, 2 * (n - 1));
    }
  }

  /** It gives up exactly when every attempt fails before the context ends. */
  lemma ExhaustsIff(env: Env, cfg: Config)
    ensures Schedule(env, cfg, 0).end.Exhausted? <==>
            AllFail(env, 0, Attempts(cfg)) && !Done(env, 2 * (Attempts(cfg) - 1))
  {
    ScheduleShape(env, cfg, 0);
  }

  /** What a caller sees: at most max(1, MaxRetries) dials, one sleep fewer than
      dials when the loop ran to its end, the connection's state telling success from
      failure, and never Connected after a cancellation. */
  lemma RetryContract(env: Env, cfg: Config)
    ensures var o := Schedule(env, cfg, 0);
      && Dials(o.log) <= Max(1, cfg.maxRetries)
      && Alive(env, 0, Dials(o.log))
      && (!o.end.Cancelled? ==> Sleeps(o.log) == Dials(o.log) - 1)
      && (o.end.Exhausted? ==> Dials(o.log) == Max(1, cfg.maxRetries))
      && (StateAfter(o) == Connected <==> o.end == Success)
      && (o.end.Exhausted? ==> StateAfter(o) == Failed)
      && (o.end.Cancelled? ==> StateAfter(o) == if Dials(o.log) == 0 then Reconnecting else Failed)
  {
    ScheduleShape(env, cfg, 0);
  }

  /** How a caller tells the ends apart: no error on success, the context's own error after
      a cancellation, and ErrConnectionFailed with the last dial's error underneath after
      exhaustion. */
  lemma EndsTellApart(end: End)
    ensures EndError(end).None? <==> end == Success
    ensures end == Cancelled ==> EndError(end) == Some(Plain(Errors.Kind.Context))
    ensures end.Exhausted? ==>
      && HasKind(EndError(end).value, ConnectionFailed)
      && FindReturn(EndError(end).value) == FindReturn(end.last)
  {
    if end.Exhausted? {
      var c := Around([Plain(ConnectionFailed)], Around([], Hole, []), []);
      ExhaustionIsWrapping(end.last);
      WrappingKeepsReturn(c, end.last);
      assert HasKind(EndError(end).value.children[0], ConnectionFailed);
    }
  }

  lemma ExhaustionIsWrapping(e: Error)
    ensures var c := Around([Plain(ConnectionFailed)], Around([], Hole, []), []);
      Silent(c) && Plug(c, Sanitize(e)) == EndError(Exhausted(e)).value
  {
    assert FindFirst([Plain(ConnectionFailed)][1..]) == None;
    assert FindFirst([]) == None;
    assert [] + [Sanitize(e)] + [] == [Sanitize(e)];
    assert [Plain(ConnectionFailed)] + [DialError(e)] + [] == [Plain(ConnectionFailed), DialError(e)];
    assert Plug(Around([], Hole, []), Sanitize(e)) == DialError(e);
  }

  /** The error of an exhausted loop is classified like the last dial's return code. */
  lemma ExhaustionKeepsClass(e: Error)
    ensures IsConnectionError(EndError(Exhausted(e)).value) <==> IsConnectionError(e)
    ensures IsEmptyQueueError(EndError(Exhausted(e)).value) <==> IsEmptyQueueError(e)
  {
    var c := Around([Plain(ConnectionFailed)], Around([], Hole, []), []);
    ExhaustionIsWrapping(e);
    SilentKeepsClass(c);
    WrappingKeepsClass(c, e);
  }

  // ---------------------------------------------------------------- the log

  function DialOf(log: seq<Event>, i: nat): Event
    requires 2 * i < |log|
  {
    log[2 * i]
  }

  function PauseAfter(log: seq<Event>, i: nat): Event
    requires 2 * i + 1 < |log|
  {
    log[2 * i + 1]
  }

  function Answered(answer: Option<Error>): Event {
    if answer.None? then Dialled else DialFailed(answer.value)
  }

  /** The documented delay after attempt i, before jitter: the product of the initial
      interval and i factors, cut off at the cap. */
  function DelayAfter(cfg: Config, i: nat): int {
    var d := Min(Trunc(Product(cfg, i)), cfg.maxInterval);
    if d <= 0 then MILLISECOND else d
  }

  predicate SleepFor(env: Env, cfg: Config, i: nat, e: Event) {
    var d := DelayAfter(cfg, i);
    match e
    case Slept(t) => d <= t < d + Max(d / 10, 1)
    case Interrupted(elapsed) => 0 <= elapsed < d + Max(d / 10, 1) && (env.waited(i) <= d ==> elapsed == env.waited(i))
    case _ => false
  }

  /** From attempt k on the log alternates: dial k, the sleep after it, dial k + 1, … */
  ghost predicate Alternates(env: Env, cfg: Config, k: nat, log: seq<Event>) {
    && (forall i: nat :: 2 * i < |log| ==> DialOf(log, i) == Answered(env.dial(k + i)))
    && (forall i: nat :: 2 * i + 1 < |log| && Sane(env, cfg, k + i) ==> SleepFor(env, cfg, k + i, PauseAfter(log, i)))
    && (forall i: nat :: 2 * i + 1 < |log| ==> Pause(PauseAfter(log, i)))
  }

  /** The delay after attempt i is in range, its jitter was drawn, and the sum fits. */
  predicate Sane(env: Env, cfg: Config, i: nat) {
    && Validated(cfg) && InRange(cfg, i)
    && Drawn(RetryDelay(cfg, i, env.junk(i)), env.jitter(i))
    && DelayAfter(cfg, i) + Max(DelayAfter(cfg, i) / 10, 1) - 1 <= MAX64
  }

  lemma SleepFits(env: Env, cfg: Config, k: nat)
    requires Sane(env, cfg, k)
    ensures SleepFor(env, cfg, k, Slept(SleepAfter(env, cfg, k)))
    ensures SleepFor(env, cfg, k, Interrupted(ElapsedAfter(env, cfg, k)))
  {
    var d := RetryDelay(cfg, k, env.junk(k));
    DelayInRange(env, cfg, k);
    assert (if d <= 0 then MILLISECOND else d) == DelayAfter(cfg, k);
    SleepRange(d, SleepAfter(env, cfg, k));
  }

  lemma DelayInRange(env: Env, cfg: Config, k: nat)
    requires Validated(cfg) && InRange(cfg, k)
    ensures RetryDelay(cfg, k, env.junk(k)) == Min(Trunc(Product(cfg, k)), cfg.maxInterval)
  {
    FormulaHoldsIff(cfg, k);
  }

  lemma AlternatesBefore(env: Env, cfg: Config, k: nat, pause: Event, rest: seq<Event>)
    requires env.dial(k).Some? && Pause(pause) && (Sane(env, cfg, k) ==> SleepFor(env, cfg, k, pause))
    requires Alternates(env, cfg, k + 1, rest)
    ensures Alternates(env, cfg, k, [DialFailed(env.dial(k).value), pause] + rest)
  {
    var log := [DialFailed(env.dial(k).value), pause] + rest;
    forall i: nat | 2 * i < |log| ensures DialOf(log, i) == Answered(env.dial(k + i)) {
      if i > 0 {
        assert DialOf(log, i) == DialOf(rest, i - 1);
      }
    }
    forall i: nat | 2 * i + 1 < |log|
      ensures Pause(PauseAfter(log, i)) && (Sane(env, cfg, k + i) ==> SleepFor(env, cfg, k + i, PauseAfter(log, i)))
    {
      if i > 0 {
        assert PauseAfter(log, i) == PauseAfter(rest, i - 1);
      }
    }
  }

  /** What every run of either loop does, event by event: dial i has the answer the queue
      manager gave, and the sleep after it lasts the documented delay of attempt i, or that
      and up to a tenth of jitter, or less if it is interrupted. */
  lemma {:induction false} LogAlternates(env: Env, cfg: Config, k: nat)
    requires k < Attempts(cfg)
    ensures Alternates(env, cfg, k, Schedule(env, cfg, k).log)
    decreases Attempts(cfg) - k
  {
    if !Done(env, 2 * k) && env.dial(k).Some? && k < Attempts(cfg) - 1 {
      if Sane(env, cfg, k) {
        SleepFits(env, cfg, k);
      }
      if Done(env, 2 * k + 1) {
        var cut := Interrupted(ElapsedAfter(env, cfg, k));
        AlternatesBefore(env, cfg, k, cut, []);
        assert [DialFailed(env.dial(k).value), cut] + [] == [DialFailed(env.dial(k).value), cut];
      } else {
        LogAlternates(env, cfg, k + 1);
        AlternatesBefore(env, cfg, k, Slept(SleepAfter(env, cfg, k)), Schedule(env, cfg, k + 1).log);
      }
    }
  }

  // -------------------------------------------------------------- total wait

  function Duration(e: Event): int {
    match e
    case Slept(timer) => timer
    case Interrupted(elapsed) => elapsed
    case _ => 0
  }

  /** The time a loop spends asleep, the part of an interrupted sleep included. */
  function TotalSleep(log: seq<Event>): int {
    if log == [] then 0 else Duration(log[0]) + TotalSleep(log[1..])
  }

  ghost predicate JitterDrawn(env: Env, cfg: Config) {
    forall k: nat :: Drawn(RetryDelay(cfg, k, env.junk(k)), env.jitter(k))
  }

  ghost predicate SleepsWithin(log: seq<Event>, bound: nat) {
    forall i :: 0 <= i < |log| && Pause(log[i]) ==> 0 <= Duration(log[i]) <= bound
  }

  lemma {:induction false} ScheduleSleepsWithin(env: Env, cfg: Config, k: nat)
    requires k < Attempts(cfg) && SleepBound(cfg) - 1 <= MAX64 && JitterDrawn(env, cfg)
    ensures SleepsWithin(Schedule(env, cfg, k).log, SleepBound(cfg) - 1)
    decreases Attempts(cfg) - k
  {
    if !Done(env, 2 * k) && env.dial(k).Some? && k < Attempts(cfg) - 1 {
      SleepIsBounded(cfg, k, env.junk(k), env.jitter(k));
      if !Done(env, 2 * k + 1) {
        ScheduleSleepsWithin(env, cfg, k + 1);
        WithinAfter(env.dial(k).value, SleepAfter(env, cfg, k), Schedule(env, cfg, k + 1).log, SleepBound(cfg) - 1);
      }
    }
  }

  lemma WithinAfter(e: Error, timer: int64, rest: seq<Event>, bound: nat)
    requires 0 < timer <= bound && SleepsWithin(rest, bound)
    ensures SleepsWithin([DialFailed(e), Slept(timer)] + rest, bound)
  {
  }

  lemma {:induction false} TotalOfBounded(log: seq<Event>, bound: nat)
    requires SleepsWithin(log, bound)
    ensures 0 <= TotalSleep(log) <= Pauses(log) * bound
  {
    if log != [] {
      assert forall i :: 0 <= i < |log| - 1 ==> log[1..][i] == log[i + 1];
      TotalOfBounded(log[1..], bound);
      Distribute(One(Pause(log[0])), Pauses(log[1..]), bound);
    }
  }

  lemma Distribute(a: nat, b: nat, bound: nat)
    ensures (a + b) * bound == a * bound + b * bound
  {
  }

  lemma Monotone(a: nat, b: nat, bound: nat)
    requires a <= b
    ensures a * bound <= b * bound
  {
  }

  /** A retry loop, cancelled or not, never sleeps longer in all than one bounded sleep
      per retry. */
  lemma TotalWaitIsBounded(env: Env, cfg: Config)
    requires SleepBound(cfg) - 1 <= MAX64 && JitterDrawn(env, cfg)
    ensures 0 <= TotalSleep(Schedule(env, cfg, 0).log) <= (Attempts(cfg) - 1) * (SleepBound(cfg) - 1)
  {
    var log := Schedule(env, cfg, 0).log;
    ScheduleSleepsWithin(env, cfg, 0);
    TotalOfBounded(log, SleepBound(cfg) - 1);
    ScheduleShape(env, cfg, 0);
    Monotone(Pauses(log), Attempts(cfg) - 1, SleepBound(cfg) - 1);
  }
}
