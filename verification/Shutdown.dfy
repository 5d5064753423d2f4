/** A client and all the components it made, interleaved: Client.Close calls the `close`
    of each component of its batch and waits for it to return. */
module Shutdown {
  import opened Errors
  import opened Runs
  import Client
  import S = SenderProtocol
  import ST = SenderTheorems
  import SW = SenderWaiting
  import Witnesses = SenderWitnesses
  import L = ListenerProtocol
  import LT = ListenerTheorems

  type Name = Client.Closer
  type Tid = nat

  /** A component. A request-reply client only has a flag to set. */
  datatype Part =
    | SenderPart(sender: S.State)
    | ListenerPart(listener: L.State)
    | ReplyPart(closed: bool)

  /** The client, its components by name, and for each component whose `close` the client
      has called the thread that runs it. */
  datatype World = World(client: Client.State, parts: map<Name, Part>, closing: map<Name, Tid>)

  const INIT := World(Client.INIT, map[], map[])

  datatype Step =
    | NewSender(c: Name, maxConns: nat)
    | NewListener(c: Name, concurrency: nat)
    | NewReplyClient(c: Name)
    | CallClose(t: Tid)
    | BeginCloser(t: Tid, u: Tid)                  // Close call t calls the next closer, as thread u
    | EndCloser(t: Tid, result: Option<Error>)     // and it has returned
    | ReturnClose(t: Tid)
    | InSender(c: Name, sstep: S.Step)
    | InListener(c: Name, lstep: L.Step)
    | CloseReply(c: Name)                          // RequestReplyClient.Close is exported

  // -------------------------------------------------------------------- steps

  function Made(w: World, c: Name, part: Part): Option<World> {
    if c in w.parts then None
    else match Client.Next(w.client, Client.Register(c))
      case None => None
      case Some(client) => Some(w.(client := client, parts := w.parts[c := part]))
  }

  /** The component whose closer call t has to run next. */
  function NextCloser(client: Client.State, t: Tid): Option<Name> {
    if t in client.calls && client.calls[t].Running? && 0 < client.calls[t].left <= |client.batch| then
      Some(client.batch[client.calls[t].left - 1])
    else None
  }

  /** Thread u enters the component's `close`. */
  function Entered(part: Part, u: Tid): Option<Part> {
    match part
    case SenderPart(s) => (
      match S.Next(s, S.Call(u, S.Close(S.Beginning)))
      case None => None
      case Some(s') => Some(SenderPart(s'))
    )
    case ListenerPart(l) => (
      match L.Next(l, L.CallClose(u))
      case None => None
      case Some(l') => Some(ListenerPart(l'))
    )
    case ReplyPart(_) => Some(ReplyPart(true))
  }

  /** The component's `close`, run by thread u, has returned. */
  predicate HasReturned(part: Part, u: Tid) {
    match part
    case SenderPart(s) => u in s.threads && s.threads[u].Close? && (s.threads[u].cp.Finished? || s.threads[u].cp.AlreadyClosed?)
    case ListenerPart(l) => u in l.closes && l.closes[u].CloseReturned?
    case ReplyPart(_) => true
  }

  /** Only a sender's `close` can return an error. */
  predicate MayReturn(part: Part, result: Option<Error>) {
    part.SenderPart? || result.None?
  }

  /** `close` is not exported: only the client calls it. */
  predicate CallsClose(step: S.Step) {
    step.Call? && step.entry.Close?
  }

  function Next(w: World, step: Step): Option<World> {
    match step
    case NewSender(c, maxConns) => if maxConns >= 1 then Made(w, c, SenderPart(S.Init(maxConns))) else None
    case NewListener(c, n) => if n >= 1 then Made(w, c, ListenerPart(L.Init(n))) else None
    case NewReplyClient(c) => Made(w, c, ReplyPart(false))
    case CallClose(t) => (
      match Client.Next(w.client, Client.CallClose(t))
      case None => None
      case Some(client) => Some(w.(client := client))
    )
    case BeginCloser(t, u) => (
      match NextCloser(w.client, t)
      case None => None
      case Some(c) =>
        if c !in w.parts || c in w.closing then None
        else match Entered(w.parts[c], u)
          case None => None
          case Some(part) => Some(w.(parts := w.parts[c := part], closing := w.closing[c := u]))
    )
    case EndCloser(t, result) => (
      match NextCloser(w.client, t)
      case None => None
      case Some(c) =>
        if c in w.parts && c in w.closing && HasReturned(w.parts[c], w.closing[c]) && MayReturn(w.parts[c], result) then
          match Client.Next(w.client, Client.RunCloser(t, result))
          case None => None
          case Some(client) => Some(w.(client := client))
        else None
    )
    case ReturnClose(t) => (
      match Client.Next(w.client, Client.Return(t))
      case None => None
      case Some(client) => Some(w.(client := client))
    )
    case InSender(c, st) =>
      if c in w.parts && w.parts[c].SenderPart? && !CallsClose(st) then
        match S.Next(w.parts[c].sender, st)
        case None => None
        case Some(s) => Some(w.(parts := w.parts[c := SenderPart(s)]))
      else None
    case InListener(c, st) =>
      if c in w.parts && w.parts[c].ListenerPart? && !st.CallClose? then
        match L.Next(w.parts[c].listener, st)
        case None => None
        case Some(l) => Some(w.(parts := w.parts[c := ListenerPart(l)]))
      else None
    case CloseReply(c) =>
      if c in w.parts && w.parts[c].ReplyPart? then Some(w.(parts := w.parts[c := ReplyPart(true)])) else None
  }

  ghost predicate Reachable(w: World) {
    Reaches(Next, INIT, w)
  }

  // ---------------------------------------------------------- one close per part

  /** The sender's `close` is run by no thread but `called`, which found it open. */
  ghost predicate SenderOnce(s: S.State, called: Option<Tid>) {
    && (forall v :: v in s.threads && s.threads[v].Close? ==> called == Some(v))
    && (called.None? ==> !s.g.core.closed)
    && (called.Some? ==>
          var u := called.value;
          && u in s.threads && s.threads[u].Close? && !s.threads[u].cp.AlreadyClosed?
          && (s.g.core.closed <==> !s.threads[u].cp.Beginning?))
  }

  ghost predicate ListenerOnce(l: L.State, called: Option<Tid>) {
    && (forall v :: v in l.closes ==> called == Some(v))
    && (called.None? ==> !l.g.closed)
    && (called.Some? ==>
          var u := called.value;
          && u in l.closes && l.closes[u] != L.CloseReturned(false)
          && (l.g.closed <==> !l.closes[u].CloseCalled?))
  }

  ghost predicate PartFits(part: Part, called: Option<Tid>) {
    match part
    case SenderPart(s) => S.Reachable(s) && SenderOnce(s, called)
    case ListenerPart(l) => L.Reachable(l) && ListenerOnce(l, called)
    case ReplyPart(closed) => called.Some? ==> closed
  }

  /** A thread that is not in `close` leaves the sender as open or closed as it was. */
  lemma OtherThread(g: S.Shared, t: Tid, l: S.Local, ch: S.Choice)
    requires !l.Close? && S.LocalStep(g, t, l, ch).To?
    ensures S.LocalStep(g, t, l, ch).g.core.closed == g.core.closed && !S.LocalStep(g, t, l, ch).l.Close?
  {
    if l.Send? {
      if S.Held(l).Some? {
        HolderThread(g, t, l.pc, l.h, ch);
      }
    }
  }

  lemma HolderThread(g: S.Shared, t: Tid, pc: S.SendPc, h: S.History, ch: S.Choice)
    requires S.DeliverStep(g, t, pc, h, ch).To?
    ensures S.DeliverStep(g, t, pc, h, ch).g.core.closed == g.core.closed && !S.DeliverStep(g, t, pc, h, ch).l.Close?
  {
  }

  lemma ClosingThread(g: S.Shared, t: Tid, cp: S.ClosePc)
    requires S.CloseStep(g, t, cp).To? && !cp.AlreadyClosed? && (g.core.closed <==> !cp.Beginning?)
    ensures var m := S.CloseStep(g, t, cp);
      m.l.Close? && !m.l.cp.AlreadyClosed? && !m.l.cp.Beginning? && m.g.core.closed
  {
  }

  lemma SenderStaysOnce(s: S.State, called: Option<Tid>, step: S.Step)
    requires SenderOnce(s, called) && !CallsClose(step) && S.Next(s, step).Some?
    ensures SenderOnce(S.Next(s, step).value, called)
  {
    if step.Run? {
      if s.threads[step.t].Close? {
        ClosingThread(s.g, step.t, s.threads[step.t].cp);
      } else {
        OtherThread(s.g, step.t, s.threads[step.t], step.ch);
      }
    }
  }

  lemma ListenerStaysOnce(l: L.State, called: Option<Tid>, step: L.Step)
    requires ListenerOnce(l, called) && !step.CallClose? && L.Next(l, step).Some?
    ensures ListenerOnce(L.Next(l, step).value, called)
  {
    match step
    case CallStart(_) =>
    case RunStart(t) => StartLeavesClosed(l, t);
    case RunClose(_) =>
    case CancelCtx =>
    case PutMessage(_) =>
    case Consume(i, ch) => LT.ConsumerAlone(l.n, l.g, i, l.consumers[i], ch);
  }

  lemma StartLeavesClosed(l: L.State, t: Tid)
    requires t in l.starts && L.StartStep(l, t).Some?
    ensures L.StartStep(l, t).value.g.closed == l.g.closed && L.StartStep(l, t).value.closes == l.closes
  {
  }

  // ---------------------------------------------------------------- invariant

  function Called(w: World, c: Name): Option<Tid> {
    if c in w.closing then Some(w.closing[c]) else None
  }

  /** Every component was registered once, under its own name. */
  ghost predicate Named(w: World) {
    && (forall p, q :: 0 <= p < q < |w.client.registered| ==> w.client.registered[p] != w.client.registered[q])
    && (forall p :: 0 <= p < |w.client.registered| ==> w.client.registered[p] in w.parts)
    && (forall c :: c in w.parts ==> c in w.client.registered)
  }

  ghost predicate AllFit(w: World) {
    forall c :: c in w.parts ==> PartFits(w.parts[c], Called(w, c))
  }

  /** The close of component c has been called and has returned. */
  ghost predicate Over(w: World, c: Name) {
    c in w.parts && c in w.closing && HasReturned(w.parts[c], w.closing[c])
  }

  /** Of the batch, the closers that ran are over, and no other has been called but the
      next one. */
  ghost predicate InOrder(w: World) {
    && (forall p :: p in w.client.ran ==> p < |w.client.batch| && Over(w, w.client.batch[p]))
    && (forall p :: 0 <= p < |w.client.registered| && w.client.registered[p] in w.closing ==>
          |w.client.batch| - 1 - |w.client.ran| <= p < |w.client.batch|)
    && (forall c :: c in w.closing ==> c in w.parts)
  }

  ghost predicate Inv(w: World) {
    Client.Inv(w.client) && Named(w) && AllFit(w) && InOrder(w)
  }

  lemma InitReachable(part: Part)
    requires (part.SenderPart? && exists n: nat :: n >= 1 && part.sender == S.Init(n))
             || (part.ListenerPart? && exists n: nat :: n >= 1 && part.listener == L.Init(n))
             || part == ReplyPart(false)
    ensures PartFits(part, None)
  {
    match part
    case SenderPart(s) => ReachesItself(S.Next, s);
    case ListenerPart(l) => ReachesItself(L.Next, l);
    case ReplyPart(_) =>
  }

  /** Replacing one component leaves the others as they were. */
  lemma FitUpdate(w: World, w': World, c: Name, part: Part)
    requires AllFit(w) && w'.parts == w.parts[c := part] && PartFits(part, Called(w', c))
    requires forall d :: d != c ==> Called(w', d) == Called(w, d)
    ensures AllFit(w')
  {
    forall d | d in w'.parts ensures PartFits(w'.parts[d], Called(w', d)) {
      if d != c {
        assert PartFits(w.parts[d], Called(w, d));
      }
    }
  }

  lemma MadeIsNamed(w: World, c: Name, part: Part)
    requires Named(w) && c !in w.parts
    ensures Named(w.(client := w.client.(closers := w.client.closers + [c], registered := w.client.registered + [c]),
                     parts := w.parts[c := part]))
  {
    var registered := w.client.registered + [c];
    forall d | d in w.parts[c := part] ensures d in registered {
      if d == c {
        assert registered[|w.client.registered|] == c;
      } else {
        assert d in w.client.registered;
      }
    }
  }

  lemma MadeInOrder(w: World, c: Name, part: Part)
    requires Named(w) && InOrder(w) && c !in w.parts
    ensures InOrder(w.(client := w.client.(closers := w.client.closers + [c], registered := w.client.registered + [c]),
                       parts := w.parts[c := part]))
  {
    var w' := w.(client := w.client.(closers := w.client.closers + [c], registered := w.client.registered + [c]),
                 parts := w.parts[c := part]);
    forall p | p in w.client.ran ensures p < |w.client.batch| && Over(w', w.client.batch[p]) {
      assert Over(w, w.client.batch[p]);
    }
  }

  lemma MadeKeepsInv(w: World, c: Name, part: Part)
    requires Inv(w) && Made(w, c, part).Some? && PartFits(part, None)
    ensures Inv(Made(w, c, part).value)
  {
    Client.NextKeepsInv(w.client, Client.Register(c));
    MadeIsNamed(w, c, part);
    MadeInOrder(w, c, part);
    FitUpdate(w, Made(w, c, part).value, c, part);
  }

  lemma MoveInOrder(w: World, c: Name, part: Part)
    requires InOrder(w) && c in w.parts
    requires c in w.closing && HasReturned(w.parts[c], w.closing[c]) ==> HasReturned(part, w.closing[c])
    ensures InOrder(w.(parts := w.parts[c := part]))
  {
    var w' := w.(parts := w.parts[c := part]);
    forall p | p in w.client.ran ensures p < |w.client.batch| && Over(w', w.client.batch[p]) {
      assert Over(w, w.client.batch[p]);
    }
  }

  /** One component moves on. */
  lemma MoveKeepsInv(w: World, c: Name, part: Part)
    requires Inv(w) && c in w.parts && PartFits(part, Called(w, c))
    requires c in w.closing && HasReturned(w.parts[c], w.closing[c]) ==> HasReturned(part, w.closing[c])
    ensures Inv(w.(parts := w.parts[c := part]))
  {
    MoveInOrder(w, c, part);
    FitUpdate(w, w.(parts := w.parts[c := part]), c, part);
  }

  lemma SenderReturnStays(s: S.State, step: S.Step, u: Tid)
    requires S.Next(s, step).Some? && HasReturned(SenderPart(s), u)
    ensures HasReturned(SenderPart(S.Next(s, step).value), u)
  {
  }

  lemma ListenerReturnStays(l: L.State, step: L.Step, u: Tid)
    requires L.Next(l, step).Some? && HasReturned(ListenerPart(l), u)
    ensures HasReturned(ListenerPart(L.Next(l, step).value), u)
  {
    if step.RunStart? {
      StartLeavesClosed(l, step.t);
    }
  }

  lemma SenderKeepsInv(w: World, c: Name, step: S.Step)
    requires Inv(w) && Next(w, InSender(c, step)).Some?
    ensures Inv(Next(w, InSender(c, step)).value)
  {
    var s := w.parts[c].sender;
    assert PartFits(w.parts[c], Called(w, c));
    ST.ReachableNext(s, step);
    SenderStaysOnce(s, Called(w, c), step);
    if c in w.closing && HasReturned(w.parts[c], w.closing[c]) {
      SenderReturnStays(s, step, w.closing[c]);
    }
    MoveKeepsInv(w, c, SenderPart(S.Next(s, step).value));
  }

  lemma ListenerKeepsInv(w: World, c: Name, step: L.Step)
    requires Inv(w) && Next(w, InListener(c, step)).Some?
    ensures Inv(Next(w, InListener(c, step)).value)
  {
    var l := w.parts[c].listener;
    assert PartFits(w.parts[c], Called(w, c));
    LT.ReachableNext(l, step);
    ListenerStaysOnce(l, Called(w, c), step);
    if c in w.closing && HasReturned(w.parts[c], w.closing[c]) {
      ListenerReturnStays(l, step, w.closing[c]);
    }
    MoveKeepsInv(w, c, ListenerPart(L.Next(l, step).value));
  }

  lemma EnteredSender(s: S.State, u: Tid)
    requires SenderOnce(s, None) && S.Next(s, S.Call(u, S.Close(S.Beginning))).Some?
    ensures SenderOnce(S.Next(s, S.Call(u, S.Close(S.Beginning))).value, Some(u))
  {
  }

  lemma EnteredFits(part: Part, u: Tid)
    requires PartFits(part, None) && Entered(part, u).Some?
    ensures PartFits(Entered(part, u).value, Some(u))
  {
    match part
    case SenderPart(s) =>
      EnteredSender(s, u);
      ST.ReachableNext(s, S.Call(u, S.Close(S.Beginning)));
    case ListenerPart(l) => LT.ReachableNext(l, L.CallClose(u));
    case ReplyPart(_) =>
  }

  /** The next closer is at the position below those that ran. */
  lemma NextPosition(client: Client.State, t: Tid)
    requires Client.Inv(client) && NextCloser(client, t).Some?
    ensures |client.ran| < |client.batch| && client.winner == Some(t)
    ensures client.calls[t].left == |client.batch| - |client.ran|
    ensures client.registered[|client.batch| - 1 - |client.ran|] == NextCloser(client, t).value
    ensures client.batch[|client.batch| - 1 - |client.ran|] == NextCloser(client, t).value
  {
  }

  lemma BeginInOrder(w: World, c: Name, part: Part, u: Tid)
    requires InOrder(w) && Named(w) && |w.client.ran| < |w.client.batch| <= |w.client.registered|
    requires w.client.registered[|w.client.batch| - 1 - |w.client.ran|] == c && c in w.parts && c !in w.closing
    ensures InOrder(w.(parts := w.parts[c := part], closing := w.closing[c := u]))
  {
    var w' := w.(parts := w.parts[c := part], closing := w.closing[c := u]);
    forall p | p in w.client.ran ensures p < |w.client.batch| && Over(w', w.client.batch[p]) {
      assert Over(w, w.client.batch[p]);
    }
  }

  lemma BeginEffect(w: World, t: Tid, u: Tid) returns (c: Name, part: Part)
    requires Next(w, BeginCloser(t, u)).Some?
    ensures NextCloser(w.client, t) == Some(c) && c in w.parts && c !in w.closing && Entered(w.parts[c], u) == Some(part)
    ensures Next(w, BeginCloser(t, u)).value == w.(parts := w.parts[c := part], closing := w.closing[c := u])
  {
    c := NextCloser(w.client, t).value;
    part := Entered(w.parts[c], u).value;
  }

  lemma BegunFits(w: World, c: Name, u: Tid)
    requires AllFit(w) && c in w.parts && c !in w.closing && Entered(w.parts[c], u).Some?
    ensures AllFit(w.(parts := w.parts[c := Entered(w.parts[c], u).value], closing := w.closing[c := u]))
  {
    var part := Entered(w.parts[c], u).value;
    assert PartFits(part, Some(u)) by {
      assert PartFits(w.parts[c], Called(w, c));
      EnteredFits(w.parts[c], u);
    }
    FitUpdate(w, w.(parts := w.parts[c := part], closing := w.closing[c := u]), c, part);
  }

  lemma BeginKeepsInv(w: World, t: Tid, u: Tid)
    requires Inv(w) && Next(w, BeginCloser(t, u)).Some?
    ensures Inv(Next(w, BeginCloser(t, u)).value)
  {
    var c, part := BeginEffect(w, t, u);
    var w' := w.(parts := w.parts[c := part], closing := w.closing[c := u]);
    assert InOrder(w') by {
      NextPosition(w.client, t);
      BeginInOrder(w, c, part, u);
    }
    assert AllFit(w') by {
      BegunFits(w, c, u);
    }
    assert Named(w');
  }

  lemma EndInOrder(w: World, client: Client.State)
    requires InOrder(w) && |w.client.ran| < |w.client.batch|
    requires client.registered == w.client.registered && client.batch == w.client.batch
    requires client.ran == w.client.ran + [|w.client.batch| - 1 - |w.client.ran|]
    requires Over(w, w.client.batch[|w.client.batch| - 1 - |w.client.ran|])
    ensures InOrder(w.(client := client))
  {
    var w' := w.(client := client);
    forall p | p in client.ran ensures p < |client.batch| && Over(w', client.batch[p]) {
      assert p in w.client.ran ==> Over(w, w.client.batch[p]);
    }
  }

  lemma EndEffect(w: World, t: Tid, result: Option<Error>) returns (client: Client.State)
    requires Client.Inv(w.client) && Next(w, EndCloser(t, result)).Some?
    ensures Next(w, EndCloser(t, result)).value == w.(client := client) && Client.Inv(client)
    ensures |w.client.ran| < |w.client.batch| && Over(w, w.client.batch[|w.client.batch| - 1 - |w.client.ran|])
    ensures client.registered == w.client.registered && client.batch == w.client.batch
    ensures client.ran == w.client.ran + [|w.client.batch| - 1 - |w.client.ran|]
  {
    NextPosition(w.client, t);
    Client.NextKeepsInv(w.client, Client.RunCloser(t, result));
    client := Client.Next(w.client, Client.RunCloser(t, result)).value;
  }

  lemma EndKeepsInv(w: World, t: Tid, result: Option<Error>)
    requires Inv(w) && Next(w, EndCloser(t, result)).Some?
    ensures Inv(Next(w, EndCloser(t, result)).value)
  {
    var client := EndEffect(w, t, result);
    EndInOrder(w, client);
    SameParts(w, client);
  }

  /** A step of the client alone leaves the components alone. */
  lemma SameParts(w: World, client: Client.State)
    requires Named(w) && AllFit(w) && client.registered == w.client.registered
    ensures Named(w.(client := client)) && AllFit(w.(client := client))
  {
    var w' := w.(client := client);
    forall d | d in w'.parts ensures PartFits(w'.parts[d], Called(w', d)) {
      assert PartFits(w.parts[d], Called(w, d));
    }
  }

  lemma CallInOrder(w: World, client: Client.State)
    requires InOrder(w) && Named(w) && client.registered == w.client.registered && client.ran == w.client.ran
    requires client.batch == w.client.batch || (w.client.batch == [] && w.client.ran == [])
    ensures InOrder(w.(client := client))
  {
    var w' := w.(client := client);
    forall p | p in client.ran ensures p < |client.batch| && Over(w', client.batch[p]) {
      assert Over(w, w.client.batch[p]);
    }
    forall p | 0 <= p < |client.registered| && client.registered[p] in w.closing
      ensures |client.batch| - 1 - |client.ran| <= p < |client.batch|
    {
      assert w.client.registered[p] in w.closing;
    }
  }

  lemma CallKeepsInv(w: World, t: Tid)
    requires Inv(w) && Next(w, CallClose(t)).Some?
    ensures Inv(Next(w, CallClose(t)).value)
  {
    Client.NextKeepsInv(w.client, Client.CallClose(t));
    var w' := Next(w, CallClose(t)).value;
    CallInOrder(w, w'.client);
    SameParts(w, w'.client);
  }

  lemma ReturnKeepsInv(w: World, t: Tid)
    requires Inv(w) && Next(w, ReturnClose(t)).Some?
    ensures Inv(Next(w, ReturnClose(t)).value)
  {
    Client.NextKeepsInv(w.client, Client.Return(t));
    var w' := Next(w, ReturnClose(t)).value;
    CallInOrder(w, w'.client);
    SameParts(w, w'.client);
  }

  lemma NextKeepsInv(w: World, step: Step)
    requires Inv(w) && Next(w, step).Some?
    ensures Inv(Next(w, step).value)
  {
    match step
    case NewSender(c, maxConns) =>
      InitReachable(SenderPart(S.Init(maxConns)));
      MadeKeepsInv(w, c, SenderPart(S.Init(maxConns)));
    case NewListener(c, n) =>
      InitReachable(ListenerPart(L.Init(n)));
      MadeKeepsInv(w, c, ListenerPart(L.Init(n)));
    case NewReplyClient(c) => MadeKeepsInv(w, c, ReplyPart(false));
    case CallClose(t) => CallKeepsInv(w, t);
    case BeginCloser(t, u) => BeginKeepsInv(w, t, u);
    case EndCloser(t, result) => EndKeepsInv(w, t, result);
    case ReturnClose(t) => ReturnKeepsInv(w, t);
    case InSender(c, st) => SenderKeepsInv(w, c, st);
    case InListener(c, st) => ListenerKeepsInv(w, c, st);
    case CloseReply(c) => MoveKeepsInv(w, c, ReplyPart(true));
  }

  lemma InvHolds(w: World)
    requires Reachable(w)
    ensures Inv(w)
  {
    forall w, step | Inv(w) && Next(w, step).Some?
      ensures Inv(Next(w, step).value)
    {
      NextKeepsInv(w, step);
    }
    ReachesKeeps(Next, Inv, INIT, w);
  }

  // ------------------------------------------------------------------ theorems

  /** The component's work is over: no send of it is in flight, no consumer of it runs. */
  ghost predicate AtRest(part: Part) {
    match part
    case SenderPart(s) => s.g.core.closed && forall t :: t in s.threads ==> !S.InFlight(s.threads[t])
    case ListenerPart(l) => l.g.closed && forall i :: i in l.consumers ==> !LT.Running(l.consumers[i])
    case ReplyPart(closed) => closed
  }

  lemma SenderAtRest(s: S.State, u: Tid)
    requires S.Reachable(s) && SenderOnce(s, Some(u)) && HasReturned(SenderPart(s), u)
    ensures AtRest(SenderPart(s))
  {
    forall t | t in s.threads ensures s.g.core.closed && !S.InFlight(s.threads[t]) {
      ST.NoSendPastBarrier(s, u, t);
    }
  }

  lemma ListenerAtRest(l: L.State, u: Tid)
    requires L.Reachable(l) && ListenerOnce(l, Some(u)) && HasReturned(ListenerPart(l), u)
    ensures AtRest(ListenerPart(l))
  {
    forall i | i in l.consumers ensures !LT.Running(l.consumers[i]) {
      assert Exec(L.Next, l, []) == Some(l);
      LT.NoConsumerAfterClose(l, u, [], i);
    }
  }

  lemma OverIsAtRest(w: World, c: Name)
    requires AllFit(w) && Over(w, c)
    ensures AtRest(w.parts[c])
  {
    assert PartFits(w.parts[c], Called(w, c));
    match w.parts[c]
    case SenderPart(s) => SenderAtRest(s, w.closing[c]);
    case ListenerPart(l) => ListenerAtRest(l, w.closing[c]);
    case ReplyPart(_) =>
  }

  lemma {:induction false} BatchStays(w: World, steps: seq<Step>)
    requires Inv(w) && w.client.closed && Exec(Next, w, steps).Some?
    ensures var w' := Exec(Next, w, steps).value;
      Inv(w') && w'.client.closed && w'.client.batch == w.client.batch && |w.client.ran| <= |w'.client.ran|
    decreases |steps|
  {
    if steps != [] {
      ClientMoves(w, steps[0]);
      NextKeepsInv(w, steps[0]);
      BatchStays(Next(w, steps[0]).value, steps[1..]);
    }
  }

  lemma RanIsAtRest(w: World, p: nat)
    requires Inv(w) && |w.client.batch| - |w.client.ran| <= p < |w.client.batch|
    ensures w.client.batch[p] in w.parts && AtRest(w.parts[w.client.batch[p]])
  {
    assert w.client.ran[|w.client.batch| - 1 - p] == p;
    assert Over(w, w.client.batch[p]);
    OverIsAtRest(w, w.client.batch[p]);
  }

  /** What Client.Close promises: when the Close that won has returned, every component
      registered before it is at rest, and stays so on every run. */
  lemma CloseLeavesAllAtRest(w: World, t: Tid, steps: seq<Step>)
    requires Reachable(w) && w.client.winner == Some(t) && t in w.client.calls && w.client.calls[t].Returned?
    requires Exec(Next, w, steps).Some?
    ensures var w' := Exec(Next, w, steps).value;
      forall p :: 0 <= p < |w.client.batch| ==> w.client.batch[p] in w'.parts && AtRest(w'.parts[w.client.batch[p]])
  {
    assert Inv(w) by { InvHolds(w); }
    BatchStays(w, steps);
    var w' := Exec(Next, w, steps).value;
    forall p | 0 <= p < |w.client.batch|
      ensures w.client.batch[p] in w'.parts && AtRest(w'.parts[w.client.batch[p]])
    {
      RanIsAtRest(w', p);
    }
  }

  /** While it runs: components are closed from the last one registered down, one at a
      time; those above are at rest already, and those below have not been asked. */
  lemma ClosesOneAtATime(w: World, t: Tid, p: nat)
    requires Reachable(w) && w.client.winner == Some(t) && t in w.client.calls && p < |w.client.batch|
    ensures p >= |w.client.batch| - |w.client.ran| ==>
              w.client.batch[p] in w.parts && AtRest(w.parts[w.client.batch[p]])
    ensures p < |w.client.batch| - |w.client.ran| - 1 ==> w.client.batch[p] !in w.closing
  {
    assert Inv(w) by { InvHolds(w); }
    assert w.client.registered[p] == w.client.batch[p];
    if p >= |w.client.batch| - |w.client.ran| {
      RanIsAtRest(w, p);
    }
  }

  /** Each component's `close` runs at most once, so it never finds the component closed:
      the early return at its head is never taken. */
  lemma ComponentClosedOnce(w: World, c: Name)
    requires Reachable(w) && c in w.parts
    ensures match w.parts[c]
      case SenderPart(s) =>
        && (forall u, v :: u in s.threads && v in s.threads && s.threads[u].Close? && s.threads[v].Close? ==> u == v)
        && (forall u :: u in s.threads && s.threads[u].Close? ==> !s.threads[u].cp.AlreadyClosed?)
      case ListenerPart(l) =>
        && (forall u, v :: u in l.closes && v in l.closes ==> u == v)
        && (forall u :: u in l.closes ==> l.closes[u] != L.CloseReturned(false))
      case ReplyPart(_) => true
  {
    InvHolds(w);
    assert PartFits(w.parts[c], Called(w, c));
  }

  // ----------------------------------------------------------- a blocked client

  /** The sender at position p of the batch holds a stranded send, and its `close` has
      not returned. */
  ghost predicate Blocked(w: World, p: nat, t: Tid) {
    && p < |w.client.batch| - |w.client.ran|
    && w.client.batch[p] in w.parts && w.parts[w.client.batch[p]].SenderPart?
    && SW.Stranded(w.parts[w.client.batch[p]].sender, t)
  }

  lemma StrandedHasNotReturned(s: S.State, t: Tid, u: Tid)
    requires S.Reachable(s) && SW.Stranded(s, t) && SenderOnce(s, Some(u))
    ensures !HasReturned(SenderPart(s), u)
  {
    if HasReturned(SenderPart(s), u) {
      ST.NoSendPastBarrier(s, u, t);
    }
  }

  /** Whether the step moves component c. */
  predicate Moves(w: World, c: Name, step: Step) {
    match step
    case InSender(d, _) => d == c
    case InListener(d, _) => d == c
    case CloseReply(d) => d == c
    case BeginCloser(v, _) => NextCloser(w.client, v) == Some(c)
    case _ => false
  }

  lemma OthersStay(w: World, c: Name, step: Step)
    requires c in w.parts && !Moves(w, c, step) && Next(w, step).Some?
    ensures c in Next(w, step).value.parts && Next(w, step).value.parts[c] == w.parts[c]
  {
    match step
    case NewSender(_, _) =>
    case NewListener(_, _) =>
    case NewReplyClient(_) =>
    case CallClose(_) =>
    case BeginCloser(_, _) =>
    case EndCloser(_, _) =>
    case ReturnClose(_) =>
    case InSender(_, _) =>
    case InListener(_, _) =>
    case CloseReply(_) =>
  }

  lemma ClientMoves(w: World, step: Step)
    requires w.client.closed && Next(w, step).Some?
    ensures var client := Next(w, step).value.client;
      && client.closed && client.batch == w.client.batch
      && (!step.EndCloser? ==> client.ran == w.client.ran)
      && (step.EndCloser? ==> |client.ran| == |w.client.ran| + 1)
  {
    match step
    case NewSender(_, _) =>
    case NewListener(_, _) =>
    case NewReplyClient(_) =>
    case CallClose(_) =>
    case BeginCloser(_, _) =>
    case EndCloser(_, _) =>
    case ReturnClose(_) =>
    case InSender(_, _) =>
    case InListener(_, _) =>
    case CloseReply(_) =>
  }

  /** The closer of the blocked sender cannot end. */
  lemma EndIsElsewhere(w: World, p: nat, t: Tid, v: Tid, result: Option<Error>)
    requires Client.Inv(w.client) && Blocked(w, p, t) && Next(w, EndCloser(v, result)).Some?
    requires PartFits(w.parts[w.client.batch[p]], Called(w, w.client.batch[p]))
    ensures p < |w.client.batch| - |w.client.ran| - 1
  {
    NextPosition(w.client, v);
    var c := w.client.batch[p];
    if NextCloser(w.client, v) == Some(c) {
      StrandedHasNotReturned(w.parts[c].sender, t, w.closing[c]);
    }
  }

  lemma BlockedSender(w: World, c: Name, t: Tid, step: Step)
    requires c in w.parts && w.parts[c].SenderPart? && SW.Stranded(w.parts[c].sender, t)
    requires Next(w, step).Some? && step != InSender(c, S.Cancel(t))
    ensures var w' := Next(w, step).value;
      c in w'.parts && w'.parts[c].SenderPart? && SW.Stranded(w'.parts[c].sender, t)
  {
    if !Moves(w, c, step) {
      OthersStay(w, c, step);
    } else if step.InSender? {
      SW.StrandedStep(w.parts[c].sender, t, step.sstep);
    } else if step.BeginCloser? {
      SW.StrandedStep(w.parts[c].sender, t, S.Call(step.u, S.Close(S.Beginning)));
    }
  }

  lemma BlockedStep(w: World, p: nat, t: Tid, step: Step)
    requires Inv(w) && Blocked(w, p, t) && w.client.closed && Next(w, step).Some?
    requires step != InSender(w.client.batch[p], S.Cancel(t))
    ensures var w' := Next(w, step).value; Blocked(w', p, t) && w'.client.closed && w'.client.batch == w.client.batch
  {
    var c := w.client.batch[p];
    ClientMoves(w, step);
    BlockedSender(w, c, t, step);
    if step.EndCloser? {
      assert PartFits(w.parts[c], Called(w, c));
      EndIsElsewhere(w, p, t, step.t, step.result);
    }
  }

  lemma {:induction false} BlockedForever(w: World, p: nat, t: Tid, steps: seq<Step>)
    requires Inv(w) && Blocked(w, p, t) && w.client.closed && Exec(Next, w, steps).Some?
    requires InSender(w.client.batch[p], S.Cancel(t)) !in steps
    ensures var w' := Exec(Next, w, steps).value;
      Inv(w') && Blocked(w', p, t) && w'.client.closed && w'.client.batch == w.client.batch
    decreases |steps|
  {
    if steps != [] {
      BlockedStep(w, p, t, steps[0]);
      NextKeepsInv(w, steps[0]);
      BlockedForever(Next(w, steps[0]).value, p, t, steps[1..]);
    }
  }

  /** One stranded send blocks the whole client: until its own context ends, on every run,
      the winning Close does not return, and no component registered before that sender
      is closed or even asked to close. */
  lemma StrandedSendBlocksClient(w: World, p: nat, t: Tid, steps: seq<Step>)
    requires Reachable(w) && Blocked(w, p, t) && w.client.closed && Exec(Next, w, steps).Some?
    requires InSender(w.client.batch[p], S.Cancel(t)) !in steps
    ensures var w' := Exec(Next, w, steps).value;
      && w'.client.batch == w.client.batch
      && w'.client.winner.Some? && w'.client.winner.value in w'.client.calls
      && w'.client.calls[w'.client.winner.value].Running?
      && forall q :: 0 <= q < p ==> w'.client.batch[q] !in w'.closing
  {
    InvHolds(w);
    BlockedForever(w, p, t, steps);
    var w' := Exec(Next, w, steps).value;
    forall q | 0 <= q < p ensures w'.client.batch[q] !in w'.closing {
      assert w'.client.registered[q] == w'.client.batch[q];
    }
  }

  ghost predicate NoClose(s: S.State) {
    forall t :: t in s.threads ==> !s.threads[t].Close?
  }

  lemma NoCloseBefore(s: S.State, step: S.Step)
    requires S.Next(s, step).Some? && NoClose(S.Next(s, step).value)
    ensures NoClose(s) && !CallsClose(step)
  {
    var s' := S.Next(s, step).value;
    forall t | t in s.threads ensures !s.threads[t].Close? {
      assert t in s'.threads;
    }
    assert step.Call? ==> step.t in s'.threads;
  }

  lemma {:induction false} NoCloseAlong(s: S.State, steps: seq<S.Step>)
    requires Exec(S.Next, s, steps).Some? && NoClose(Exec(S.Next, s, steps).value)
    ensures NoClose(s)
    decreases |steps|
  {
    if steps != [] {
      NoCloseAlong(S.Next(s, steps[0]).value, steps[1..]);
      NoCloseBefore(s, steps[0]);
    }
  }

  /** A run of a sender by itself that calls no `close` is a run of it under its client. */
  lemma {:induction false} SenderRunLifts(w: World, c: Name, steps: seq<S.Step>, s': S.State)
    requires Reachable(w) && c in w.parts && w.parts[c].SenderPart?
    requires Exec(S.Next, w.parts[c].sender, steps) == Some(s') && NoClose(s')
    ensures Reachable(w.(parts := w.parts[c := SenderPart(s')]))
    decreases |steps|
  {
    if steps == [] {
      assert w.(parts := w.parts[c := SenderPart(s')]) == w;
    } else {
      var s1 := S.Next(w.parts[c].sender, steps[0]).value;
      NoCloseAlong(s1, steps[1..]);
      NoCloseBefore(w.parts[c].sender, steps[0]);
      var w1 := w.(parts := w.parts[c := SenderPart(s1)]);
      ReachesNext(Next, INIT, w, InSender(c, steps[0]));
      SenderRunLifts(w1, c, steps[1..], s');
      assert w1.parts[c := SenderPart(s')] == w.parts[c := SenderPart(s')];
    }
  }

  lemma SenderAlone(s: S.State) returns (w: World)
    requires S.Reachable(s) && NoClose(s)
    ensures Reachable(w) && w.parts == map[0 := SenderPart(s)] && w.closing == map[]
    ensures w.client == Client.INIT.(closers := [0], registered := [0])
  {
    var n: nat :| n >= 1 && Reaches(S.Next, S.Init(n), s);
    var steps :| Exec(S.Next, S.Init(n), steps) == Some(s);
    var w0 := Next(INIT, NewSender(0, n)).value;
    ReachesItself(Next, INIT);
    ReachesNext(Next, INIT, INIT, NewSender(0, n));
    SenderRunLifts(w0, 0, steps, s);
    w := w0.(parts := w0.parts[0 := SenderPart(s)]);
  }

  /** Client.Close of a client with this one sender begins its `close`. */
  lemma CloseBegins(w: World, s: S.State) returns (w': World)
    requires Reachable(w) && w.parts == map[0 := SenderPart(s)] && w.closing == map[]
    requires w.client == Client.INIT.(closers := [0], registered := [0])
    requires S.Next(s, S.Call(2, S.Close(S.Beginning))).Some?
    ensures Reachable(w') && w'.client.closed && w'.client.batch == [0] && w'.client.ran == []
    ensures w'.parts == map[0 := SenderPart(S.Next(s, S.Call(2, S.Close(S.Beginning))).value)]
  {
    w' := Extend(Next, INIT, w, CallClose(0));
    assert NextCloser(w'.client, 0) == Some(0);
    w' := Extend(Next, INIT, w', BeginCloser(0, 2));
  }

  /** It can happen: a client with one sender of one connection, a send that waits, the
      connection lost and discarded, and then Client.Close. */
  lemma ClientCanBeBlocked() returns (w: World)
    ensures Reachable(w) && w.client.closed && |w.client.batch| == 1 && Blocked(w, 0, 1)
  {
    var s := Witnesses.FirstSendGone();
    Witnesses.CloseStrands(s);
    w := SenderAlone(s);
    w := CloseBegins(w, s);
    w := Extend(Next, INIT, w, InSender(0, S.Run(2, S.Auto)));
  }
}
