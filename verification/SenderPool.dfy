/** The Sender's fields and the sections of code that change them. Each section is
    one critical section or one channel operation, and so one atomic step of the
    protocol in SenderProtocol. */
module SenderPool {
  import opened Errors
  import opened ConnectionStates
  import opened Numbers

  type ConnId = nat
  type Tid = nat

  /** The value of a Sender's fields. `pool` is the buffered channel, oldest first. */
  datatype Core = Core(
    pool: seq<ConnId>,
    created: int,
    maxConns: nat,
    closed: bool,
    state: ConnectionState,
    lastErr: Option<Error>,
    wg: int,
    poolMu: Option<Tid>)

  const CLIENT_CLOSED := Plain(ClientClosed)

  function NewCore(maxConns: nat): Core {
    Core([], 0, maxConns, false, Unknown, None, 0, None)
  }

  /** A send registers with the WaitGroup, unless the sender is closed. */
  function Admit(c: Core): Core {
    if c.closed then c else c.(wg := c.wg + 1)
  }

  /** A send claims the right to dial, if the limit allows. */
  predicate CanReserve(c: Core) {
    c.created < c.maxConns
  }

  function Reserve(c: Core): Core {
    if CanReserve(c) then c.(created := c.created + 1) else c
  }

  function Unreserve(c: Core): Core {
    c.(created := c.created - 1)
  }

  function SetState(c: Core, state: ConnectionState, err: Option<Error>): Core {
    c.(state := state, lastErr := err)
  }

  function Take(c: Core): Core
    requires c.pool != []
  {
    c.(pool := c.pool[1..])
  }

  predicate HasRoom(c: Core) {
    |c.pool| < c.maxConns
  }

  function Give(c: Core, conn: ConnId): Core {
    c.(pool := c.pool + [conn])
  }

  function Depart(c: Core): Core {
    c.(wg := c.wg - 1)
  }

  /** `close` marks the sender, unless another `close` already did. */
  function Shut(c: Core): Core {
    if c.closed then c else c.(closed := true, state := Stopped, lastErr := None)
  }

  /** What `close` leaves after it polled the pool `rounds` times. */
  function Drained(c: Core, rounds: nat): Core {
    c.(pool := c.pool[Min(rounds, |c.pool|)..])
  }

  /** What the environment answers to one send: whether its context is live at the first
      look, the result of a dial and the connection it would give, the connection another
      send hands over if this one has to wait (None when its context ends first), and the
      results of the first put, of Reconnect and of the second put. */
  datatype Answers = Answers(
    live: bool, dial: Option<Error>, dialled: ConnId, handed: Option<ConnId>,
    put: Option<Error>, redial: Option<Error>, reput: Option<Error>)

  /** What a send with a connection in hand comes to: its error, whether it keeps the
      connection, and the state and error it leaves on record. */
  predicate ComesTo(a: Answers, err: Option<Error>, kept: bool, state: ConnectionState, lastErr: Option<Error>) {
    if a.put.None? then err.None? && kept && state == Connected && lastErr.None?
    else if !IsConnectionError(a.put.value) then err == a.put && kept && state == Connected && lastErr.None?
    else if a.redial.Some? then err == a.redial && !kept && state == Failed && lastErr == a.redial
    else if a.reput.None? then err.None? && kept && state == Connected && lastErr.None?
    else if IsConnectionError(a.reput.value) then err == a.reput && !kept && state == Failed && lastErr == a.reput
    else err == a.reput && !kept && state == Connected && lastErr.None?
  }

  /** How the sends in flight leave a sender that is being closed. */
  datatype Settled = Settled(pool: seq<ConnId>, created: int, state: ConnectionState, lastErr: Option<Error>)

  /** The Sender object; every method is one section, or a whole call by itself. */
  class Sender {
    var pool: seq<ConnId>
    var created: int
    const maxConns: nat
    var closed: bool
    var state: ConnectionState
    var lastErr: Option<Error>
    var wg: int
    var poolMu: Option<Tid>

    ghost function View(): Core
      reads this
    {
      Core(pool, created, maxConns, closed, state, lastErr, wg, poolMu)
    }

    constructor (maxConns: nat)
      ensures View() == NewCore(maxConns)
    {
      pool, created, this.maxConns, closed := [], 0, maxConns, false;
      state, lastErr, wg, poolMu := Unknown, None, 0, None;
    }

    method Enter() returns (err: Option<Error>)
      modifies this
      ensures View() == Admit(old(View()))
      ensures err == if old(closed) then Some(CLIENT_CLOSED) else None
    {
      if closed {
        return Some(CLIENT_CLOSED);
      }
      wg := wg + 1;
      err := None;
    }

    method ReserveSlot() returns (canCreate: bool)
      modifies this
      ensures View() == Reserve(old(View()))
      ensures canCreate == CanReserve(old(View()))
    {
      canCreate := created < maxConns;
      if canCreate {
        created := created + 1;
      }
    }

    method DropSlot()
      modifies this
      ensures View() == Unreserve(old(View()))
    {
      created := created - 1;
    }

    method Record(s: ConnectionState, err: Option<Error>)
      modifies this
      ensures View() == SetState(old(View()), s, err)
    {
      state := s;
      lastErr := err;
    }

    /** A receive with a default branch. */
    method TryReceive() returns (conn: Option<ConnId>)
      modifies this
      ensures conn.Some? <==> old(pool) != []
      ensures conn.Some? ==> conn.value == old(pool)[0] && View() == Take(old(View()))
      ensures conn.None? ==> View() == old(View())
    {
      if pool == [] {
        return None;
      }
      conn := Some(pool[0]);
      pool := pool[1..];
    }

    /** A send on the channel; it blocks unless there is room. */
    method Return(conn: ConnId)
      requires HasRoom(View())
      modifies this
      ensures View() == Give(old(View()), conn)
    {
      pool := pool + [conn];
    }

    method Exit()
      modifies this
      ensures View() == Depart(old(View()))
    {
      wg := wg - 1;
    }

    /** The first section of `close`: the drain bound is read here. */
    method BeginClose() returns (bound: Option<int>)
      modifies this
      ensures View() == Shut(old(View()))
      ensures bound == if old(closed) then None else Some(old(created))
    {
      if closed {
        return None;
      }
      closed, state, lastErr := true, Stopped, None;
      bound := Some(created);
    }

    /** The drain loop of `close`: `bound` polls, each closing at most one connection. */
    method Drain(bound: nat) returns (gone: seq<ConnId>)
      modifies this
      ensures View() == Drained(old(View()), bound)
      ensures gone + pool == old(pool)
      ensures |gone| == Min(bound, |old(pool)|)
    {
      gone := [];
      for i := 0 to bound
        invariant |gone| == Min(i, |old(pool)|)
        invariant gone == old(pool)[..|gone|] && pool == old(pool)[|gone|..]
        invariant View() == old(View()).(pool := pool)
      {
        var conn := TryReceive();
        if conn.Some? {
          gone := gone + [conn.value];
        }
      }
    }

    /** A send from start to end: it takes the oldest idle connection, or dials one, or
        waits for one; and then it gives exactly that one back or drops it together with
        its unit of `created`. A connection it waited for was checked out before and is
        idle or gone afterwards. */
    method Send(a: Answers) returns (err: Option<Error>)
      requires |pool| <= created <= maxConns && maxConns >= 1
      modifies this
      ensures wg == old(wg) && closed == old(closed) && poolMu == old(poolMu)
      ensures old(closed) ==> err == Some(CLIENT_CLOSED) && View() == old(View())
      ensures !old(closed) && !a.live ==> err == Some(Plain(Context)) && View() == old(View())
      // No connection idle and none to be created: it waits.
      ensures !old(closed) && a.live && old(pool) == [] && old(created) == maxConns && a.handed.None? ==>
        err == Some(Plain(Context)) && View() == old(View())
      ensures !old(closed) && a.live && old(pool) == [] && old(created) == maxConns && a.handed.Some? ==>
        exists kept ::
          && ComesTo(a, err, kept, state, lastErr)
          && pool == (if kept then [a.handed.value] else []) && created == (if kept then old(created) else old(created) - 1)
      // No connection idle, and one to be created.
      ensures !old(closed) && a.live && old(pool) == [] && old(created) < maxConns && a.dial.Some? ==>
        err == a.dial && pool == [] && created == old(created) && state == Failed && lastErr == a.dial
      ensures !old(closed) && a.live && old(pool) == [] && old(created) < maxConns && a.dial.None? ==>
        exists kept ::
          && ComesTo(a, err, kept, state, lastErr)
          && pool == (if kept then [a.dialled] else []) && created == (if kept then old(created) + 1 else old(created))
      // The oldest idle connection.
      ensures !old(closed) && a.live && old(pool) != [] ==>
        exists kept ::
          && ComesTo(a, err, kept, state, lastErr)
          && pool == (if kept then old(pool)[1..] + [old(pool)[0]] else old(pool)[1..])
          && created == (if kept then old(created) else old(created) - 1)
    {
      err := Enter();
      if err.Some? {
        return;
      }
      if !a.live {
        Exit();
        return Some(Plain(Context));
      }
      var conn := TryReceive();
      if conn.None? {
        var canCreate := ReserveSlot();
        if canCreate && a.dial.Some? {
          DropSlot();
          Record(Failed, a.dial);
          Exit();
          return a.dial;
        }
        conn := if canCreate then Some(a.dialled) else a.handed;
        if conn.None? {
          Exit();
          return Some(Plain(Context));
        }
      }
      Record(Connected, None);
      err := Deliver(conn.value, a);
      Exit();
    }

    /** The send with its connection in hand. */
    method Deliver(conn: ConnId, a: Answers) returns (err: Option<Error>)
      requires HasRoom(View()) && state == Connected && lastErr.None?
      modifies this
      ensures wg == old(wg) && closed == old(closed) && poolMu == old(poolMu)
      ensures exists kept ::
        && ComesTo(a, err, kept, state, lastErr)
        && pool == (if kept then old(pool) + [conn] else old(pool))
        && created == (if kept then old(created) else old(created) - 1)
    {
      err := a.put;
      if err.Some? && IsConnectionError(err.value) {
        Record(Reconnecting, err);
        if a.redial.Some? {
          DropSlot();
          Record(Failed, a.redial);
          assert ComesTo(a, a.redial, false, state, lastErr);
          return a.redial;
        }
        Record(Connected, None);
        err := a.reput;
        if err.Some? {
          DropSlot();
          if IsConnectionError(err.value) {
            Record(Failed, err);
          }
          assert ComesTo(a, err, false, state, lastErr);
          return;
        }
      }
      if err.None? {
        Record(Connected, None);
      }
      Return(conn);
      assert ComesTo(a, err, true, state, lastErr);
    }

    /** `close` from start to end, with the sends in flight, if any, leaving the sender as
        `settled` while it waits for them. It closes as many connections as were created
        when it began, oldest first: the pool ends empty exactly when the sends left no
        more than that. A second `close` does nothing. */
    method Close(settled: Settled) returns (gone: seq<ConnId>)
      modifies this
      ensures closed
      ensures old(closed) ==> gone == [] && View() == old(View())
      ensures !old(closed) ==>
        var left := if old(wg) == 0 then Settled(old(pool), old(created), Stopped, None) else settled;
        && gone + pool == left.pool && wg == 0
        && created == left.created && state == left.state && lastErr == left.lastErr
        && |gone| == Max(0, Min(old(created), |left.pool|))
        && (pool == [] <==> |left.pool| <= Max(0, old(created)))
    {
      gone := [];
      var bound := BeginClose();
      if bound.Some? {
        if wg != 0 {
          pool, created, state, lastErr, wg := settled.pool, settled.created, settled.state, settled.lastErr, 0;
        }
        if bound.value > 0 {
          gone := Drain(bound.value);
        }
      }
    }
  }
}
