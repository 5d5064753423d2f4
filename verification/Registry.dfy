/** The in-memory registry of pending correlation IDs. */
module Registry {
  import opened Errors
  import opened Counting
  import opened Runs

  // ------------------------------------------------------------- the objects

  /** A Go channel of capacity 1. */
  class Channel<T> {
    var slot: Option<T>

    constructor ()
      ensures slot == None
    {
      slot := None;
    }
  }

  class Registry<T> {
    var pending: map<string, Channel<T>>

    constructor ()
      ensures pending == map[]
    {
      pending := map[];
    }

    method Register(id: string) returns (ch: Channel<T>)
      modifies this
      ensures fresh(ch) && ch.slot == None
      ensures pending == old(pending)[id := ch]
    {
      ch := new Channel<T>();
      pending := pending[id := ch];
    }

    /** Never blocks: an unknown ID and a full channel both drop the message. */
    method Deliver(id: string, msg: T)
      modifies if id in pending then {pending[id]} else {}
      ensures id in pending ==> pending[id].slot == if old(pending[id].slot).None? then Some(msg) else old(pending[id].slot)
    {
      if id in pending {
        var ch := pending[id];
        if ch.slot.None? {
          ch.slot := Some(msg);
        }
      }
    }

    method Deregister(id: string)
      modifies this
      ensures pending == old(pending) - {id}
    {
      pending := pending - {id};
    }
  }

  // -------------------------------------------------------- all interleavings

  type ChanId = nat
  type Tid = nat

  /** A message and the ID it was delivered under. */
  datatype Item = Item(under: string, msg: nat)

  /** A channel, with the ID it was registered for. */
  datatype Slot = Slot(id: string, content: Option<Item>)

  /** Deliver between its lookup and its send. */
  datatype Sending = Sending(item: Item, ch: ChanId)

  datatype State = State(
    pending: map<string, ChanId>,
    chans: map<ChanId, Slot>,
    sending: map<Tid, Sending>,
    received: seq<(ChanId, Item)>,
    found: nat,        // lookups that found a channel
    dropped: nat)      // sends that found it full

  const INIT := State(map[], map[], map[], [], 0, 0)

  datatype Step =
    | Register(id: string, ch: ChanId)
    | Deregister(id: string)
    | Lookup(t: Tid, item: Item)
    | Finish(t: Tid)
    | Receive(ch: ChanId)

  function Next(s: State, step: Step): Option<State> {
    match step
    case Register(id, ch) =>
      if ch !in s.chans then
        Some(s.(pending := s.pending[id := ch], chans := s.chans[ch := Slot(id, None)]))
      else None
    case Deregister(id) => Some(s.(pending := s.pending - {id}))
    case Lookup(t, item) =>
      if t in s.sending then None
      else if item.under !in s.pending then Some(s)
      else Some(s.(sending := s.sending[t := Sending(item, s.pending[item.under])], found := s.found + 1))
    case Finish(t) =>
      if t !in s.sending then None
      else
        var Sending(item, ch) := s.sending[t];
        var s' := s.(sending := s.sending - {t});
        if ch !in s.chans then None
        else if s.chans[ch].content.None? then
          Some(s'.(chans := s.chans[ch := s.chans[ch].(content := Some(item))]))
        else Some(s'.(dropped := s.dropped + 1))
    case Receive(ch) =>
      if ch in s.chans && s.chans[ch].content.Some? then
        Some(s.(chans := s.chans[ch := s.chans[ch].(content := None)],
                received := s.received + [(ch, s.chans[ch].content.value)]))
      else None
  }

  predicate Full(slot: Slot) {
    slot.content.Some?
  }

  ghost predicate PendingFits(s: State) {
    forall id :: id in s.pending ==> s.pending[id] in s.chans && s.chans[s.pending[id]].id == id
  }

  ghost predicate ContentFits(s: State) {
    && (forall c :: c in s.chans && Full(s.chans[c]) ==> s.chans[c].content.value.under == s.chans[c].id)
    && (forall t :: t in s.sending ==>
          s.sending[t].ch in s.chans && s.chans[s.sending[t].ch].id == s.sending[t].item.under)
    && (forall i :: 0 <= i < |s.received| ==>
          s.received[i].0 in s.chans && s.chans[s.received[i].0].id == s.received[i].1.under)
  }

  /** Every delivery that found a channel is on its way, waiting, received or dropped. */
  ghost predicate Conserved(s: State) {
    s.found == |s.sending| + |Where(s.chans, Full)| + |s.received| + s.dropped
  }

  ghost predicate Inv(s: State) {
    PendingFits(s) && ContentFits(s) && Conserved(s)
  }

  lemma NextKeepsFits(s: State, step: Step)
    requires PendingFits(s) && ContentFits(s) && Next(s, step).Some?
    ensures PendingFits(Next(s, step).value) && ContentFits(Next(s, step).value)
  {
  }

  lemma NextConserves(s: State, step: Step)
    requires Conserved(s) && Next(s, step).Some?
    ensures Conserved(Next(s, step).value)
  {
    match step
    case Register(id, ch) => WhereUpdate(s.chans, ch, Slot(id, None), Full);
    case Deregister(_) =>
    case Lookup(t, item) =>
    case Finish(t) =>
      var Sending(item, ch) := s.sending[t];
      assert (s.sending - {t}).Keys == s.sending.Keys - {t};
      WhereUpdate(s.chans, ch, s.chans[ch].(content := Some(item)), Full);
    case Receive(ch) => WhereUpdate(s.chans, ch, s.chans[ch].(content := None), Full);
  }

  lemma InvHolds(s: State)
    requires Reaches(Next, INIT, s)
    ensures Inv(s)
  {
    forall s, step | Inv(s) && Next(s, step).Some?
      ensures Inv(Next(s, step).value)
    {
      NextKeepsFits(s, step);
      NextConserves(s, step);
    }
    assert Where(INIT.chans, Full) == {};
    ReachesKeeps(Next, Inv, INIT, s);
  }

  /** Distinct pending IDs have distinct channels, and whatever sits in a channel or
      was received from it was delivered under the ID the channel was registered for. */
  lemma RoutedById(s: State)
    requires Reaches(Next, INIT, s)
    ensures forall a, b :: a in s.pending && b in s.pending && a != b ==> s.pending[a] != s.pending[b]
    ensures forall c :: c in s.chans && Full(s.chans[c]) ==> s.chans[c].content.value.under == s.chans[c].id
    ensures forall i :: 0 <= i < |s.received| ==>
              s.received[i].0 in s.chans && s.received[i].1.under == s.chans[s.received[i].0].id
  {
    InvHolds(s);
  }

  /** No delivery is lost or duplicated beyond the ones dropped for a full channel. */
  lemma DeliveriesConserved(s: State)
    requires Reaches(Next, INIT, s)
    ensures s.found == |s.sending| + |Where(s.chans, Full)| + |s.received| + s.dropped
  {
    InvHolds(s);
  }

  lemma {:induction false} SendingStays(s: State, t: Tid, steps: seq<Step>)
    requires t in s.sending && Exec(Next, s, steps).Some? && Finish(t) !in steps
    ensures var s' := Exec(Next, s, steps).value; t in s'.sending && s'.sending[t] == s.sending[t]
    decreases |steps|
  {
    if steps != [] {
      SendingStays(Next(s, steps[0]).value, t, steps[1..]);
    }
  }

  /** A delivery that found a channel completes whenever it goes on, whatever happens in
      between: it goes to the channel it found, also when the ID has been deregistered or
      registered anew meanwhile, it takes effect exactly when that channel is free, and
      it touches no other. */
  lemma DeliveryOnEveryRun(s: State, t: Tid, steps: seq<Step>)
    requires Reaches(Next, INIT, s) && t in s.sending && Exec(Next, s, steps).Some? && Finish(t) !in steps
    ensures var s' := Exec(Next, s, steps).value; var Sending(item, ch) := s.sending[t];
      && ch in s'.chans && Next(s', Finish(t)).Some?
      && var s'' := Next(s', Finish(t)).value;
         && t !in s''.sending && s''.pending == s'.pending && s''.received == s'.received
         && s''.chans == (if Full(s'.chans[ch]) then s'.chans else s'.chans[ch := Slot(item.under, Some(item))])
         && s''.dropped == s'.dropped + One(Full(s'.chans[ch]))
  {
    ReachesOn(Next, INIT, s, steps);
    InvHolds(Exec(Next, s, steps).value);
    SendingStays(s, t, steps);
  }

  predicate Concerns(step: Step, id: string) {
    (step.Register? || step.Deregister?) && step.id == id
  }

  lemma {:induction false} PendingStays(s: State, id: string, steps: seq<Step>)
    requires Exec(Next, s, steps).Some? && forall k :: 0 <= k < |steps| ==> !Concerns(steps[k], id)
    ensures var s' := Exec(Next, s, steps).value;
      (id in s'.pending <==> id in s.pending) && (id in s.pending ==> s'.pending[id] == s.pending[id])
    decreases |steps|
  {
    if steps != [] {
      assert !Concerns(steps[0], id);
      PendingStays(Next(s, steps[0]).value, id, steps[1..]);
    }
  }

  /** From a Register on, until the ID is registered or deregistered again, every Deliver for
      it finds that channel, which was new and empty. */
  lemma RegisteredIsFound(s: State, id: string, ch: ChanId, steps: seq<Step>, t: Tid, msg: nat)
    requires Next(s, Register(id, ch)).Some? && Exec(Next, Next(s, Register(id, ch)).value, steps).Some?
    requires forall k :: 0 <= k < |steps| ==> !Concerns(steps[k], id)
    ensures ch !in s.chans && Next(s, Register(id, ch)).value.chans == s.chans[ch := Slot(id, None)]
    ensures var s' := Exec(Next, Next(s, Register(id, ch)).value, steps).value;
      t !in s'.sending ==>
        && Next(s', Lookup(t, Item(id, msg))).Some?
        && var s'' := Next(s', Lookup(t, Item(id, msg))).value;
           t in s''.sending && s''.sending[t] == Sending(Item(id, msg), ch) && s''.found == s'.found + 1
  {
    PendingStays(Next(s, Register(id, ch)).value, id, steps);
  }

  /** From a Deregister on, until the ID is registered again, a Deliver for it does nothing. */
  lemma DeregisteredIsIgnored(s: State, id: string, steps: seq<Step>, t: Tid, msg: nat)
    requires Exec(Next, Next(s, Deregister(id)).value, steps).Some?
    requires forall k :: 0 <= k < |steps| ==> !Concerns(steps[k], id)
    ensures var s' := Exec(Next, Next(s, Deregister(id)).value, steps).value;
      t !in s'.sending ==> Next(s', Lookup(t, Item(id, msg))) == Some(s')
  {
    PendingStays(Next(s, Deregister(id)).value, id, steps);
  }

  /** The first delivery nobody has received yet wins: until a receive on that very
      channel, its content stays, whatever is registered, removed or delivered. */
  lemma {:induction false} FirstDeliveryWins(s: State, ch: ChanId, steps: seq<Step>)
    requires ch in s.chans && Full(s.chans[ch]) && Receive(ch) !in steps
    requires Exec(Next, s, steps).Some?
    ensures ch in Exec(Next, s, steps).value.chans
    ensures Exec(Next, s, steps).value.chans[ch] == s.chans[ch]
    decreases |steps|
  {
    if steps != [] {
      FirstDeliveryWins(Next(s, steps[0]).value, ch, steps[1..]);
    }
  }
}
