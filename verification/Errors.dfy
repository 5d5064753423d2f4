/** Errors as the library sees them: trees built by wrapping, classified by the
    first IBM MQ return code that `errors.As` meets. */
module Errors {

  datatype Option<+T> = None | Some(value: T)

  /** The library's sentinel errors and every other error that carries no return code. */
  datatype Kind = ClientClosed | ConnectionFailed | Timeout | HandlerPanic | Context | Generic | Other(text: string)

  /** `Wrap` is an error built by `fmt.Errorf` with any number of `%w` verbs, or by `errors.Join`. */
  datatype Error =
    | MQReturn(cc: int, rc: int)
    | Plain(kind: Kind)
    | Wrap(children: seq<Error>)

  /** `errors.As(err, &mqRet)`: depth first, left to right. */
  function FindReturn(e: Error): Option<int>
  {
    match e
    case MQReturn(_, rc) => Some(rc)
    case Plain(_) => None
    case Wrap(es) => FindFirst(es)
  }

  /** `errors.Is(err, sentinel)` for one of the library's sentinel errors. */
  predicate HasKind(e: Error, kind: Kind)
  {
    match e
    case MQReturn(_, _) => false
    case Plain(k) => k == kind
    case Wrap(es) => exists i :: 0 <= i < |es| && HasKind(es[i], kind)
  }

  function FindFirst(es: seq<Error>): Option<int>
  {
    if es == [] then None
    else match FindReturn(es[0])
      case Some(rc) => Some(rc)
      case None => FindFirst(es[1..])
  }

  const NO_MSG_AVAILABLE := 2033

  const CONNECTION_CODES: set<int> :=
    {2009, 2018, 2059, 2161, 2162, 2202, 2203, 2223, 2273, 2521, 2528}

  predicate IsConnectionError(e: Error) {
    match FindReturn(e)
    case Some(rc) => rc in CONNECTION_CODES
    case None => false
  }

  predicate IsEmptyQueueError(e: Error) {
    FindReturn(e) == Some(NO_MSG_AVAILABLE)
  }

  /** `sanitizeError`: an error that carries no return code is replaced wholesale. */
  function Sanitize(e: Error): Error {
    if FindReturn(e).Some? then e else Plain(Generic)
  }

  /** Nothing but errors with a return code gets through, and those unchanged. */
  lemma SanitizeLetsOnlyCodesThrough(e: Error)
    ensures FindReturn(e).Some? ==> Sanitize(e) == e
    ensures FindReturn(e).None? ==> Sanitize(e) == Plain(Generic)
    ensures forall kind :: kind != Generic && FindReturn(e).None? ==> !HasKind(Sanitize(e), kind)
  {
  }

  // ---------------------------------------------------------------- contexts

  /** A wrapping with one hole: the places where the library puts a sanitized
      error into a larger one, nested to any depth. */
  datatype Context =
    | Hole
    | Around(left: seq<Error>, inner: Context, right: seq<Error>)

  function Plug(c: Context, e: Error): Error {
    match c
    case Hole => e
    case Around(left, inner, right) => Wrap(left + [Plug(inner, e)] + right)
  }

  /** No error beside the path to the hole carries a return code. */
  ghost predicate Silent(c: Context) {
    match c
    case Hole => true
    case Around(left, inner, right) => FindFirst(left).None? && FindFirst(right).None? && Silent(inner)
  }

  /** `errors.Is` finds a sentinel under any wrapping, at any depth and beside anything. */
  lemma {:induction false} KindFoundAnywhere(c: Context, e: Error, kind: Kind)
    requires HasKind(e, kind)
    ensures HasKind(Plug(c, e), kind)
  {
    match c
    case Hole =>
    case Around(left, inner, right) =>
      KindFoundAnywhere(inner, e, kind);
      var children := left + [Plug(inner, e)] + right;
      assert children[|left|] == Plug(inner, e);
      assert HasKind(children[|left|], kind);
  }

  lemma {:induction false} FindFirstOfConcat(xs: seq<Error>, ys: seq<Error>)
    ensures FindFirst(xs + ys) == if FindFirst(xs).Some? then FindFirst(xs) else FindFirst(ys)
  {
    if xs == [] {
      assert xs + ys == ys;
    } else {
      assert (xs + ys)[1..] == xs[1..] + ys;
      FindFirstOfConcat(xs[1..], ys);
    }
  }

  lemma FindReturnAround(left: seq<Error>, e: Error, right: seq<Error>)
    ensures FindReturn(Wrap(left + [e] + right)) ==
            if FindFirst(left).Some? then FindFirst(left)
            else if FindReturn(e).Some? then FindReturn(e)
            else FindFirst(right)
  {
    FindFirstOfConcat(left + [e], right);
    FindFirstOfConcat(left, [e]);
    assert [e][1..] == [];
    assert FindFirst([]) == None;
  }

  /** Sanitizing an error and then wrapping it, to any depth and beside any
      errors without return codes, finds the return code of the original. */
  lemma {:induction false} WrappingKeepsReturn(c: Context, e: Error)
    requires Silent(c)
    ensures FindReturn(Plug(c, Sanitize(e))) == FindReturn(e)
  {
    match c
    case Hole =>
    case Around(left, inner, right) =>
      WrappingKeepsReturn(inner, e);
      FindReturnAround(left, Plug(inner, Sanitize(e)), right);
  }

  /** A context keeps the return code of every error exactly when it is silent:
      one stray return code beside the path changes the outcome for some error. */
  lemma {:induction false} OnlySilentContextsKeepReturns(c: Context)
    ensures Silent(c) <==> forall e :: FindReturn(Plug(c, Sanitize(e))) == FindReturn(e)
  {
    if Silent(c) {
      forall e ensures FindReturn(Plug(c, Sanitize(e))) == FindReturn(e) {
        WrappingKeepsReturn(c, e);
      }
    } else {
      var e := Spoiled(c);
      assert FindReturn(Plug(c, Sanitize(e))) != FindReturn(e);
    }
  }

  /** An error whose classification the given context changes. */
  lemma {:induction false} Spoiled(c: Context) returns (e: Error)
    requires !Silent(c)
    ensures FindReturn(Plug(c, Sanitize(e))) != FindReturn(e)
  {
    var Around(left, inner, right) := c;
    if FindFirst(left).Some? {
      e := MQReturn(2, FindFirst(left).value + 1);
    } else if Silent(inner) {
      e := Plain(Generic);
      WrappingKeepsReturn(inner, e);
    } else {
      e := Spoiled(inner);
      if FindReturn(Plug(inner, Sanitize(e))).None? {
        SomeReturnStays(inner, e);
      }
    }
    FindReturnAround(left, Plug(inner, Sanitize(e)), right);
  }

  /** A return code under the hole is never hidden altogether. */
  lemma {:induction false} SomeReturnStays(c: Context, e: Error)
    requires FindReturn(Plug(c, Sanitize(e))).None?
    ensures FindReturn(e).None?
  {
    match c
    case Hole =>
    case Around(left, inner, right) =>
      FindReturnAround(left, Plug(inner, Sanitize(e)), right);
      SomeReturnStays(inner, e);
  }

  // ------------------------------------------------------------------ classes

  predicate Classified(found: Option<int>) {
    found.Some? && (found.value in CONNECTION_CODES || found.value == NO_MSG_AVAILABLE)
  }

  /** No error to the left of the path carries a return code. */
  ghost predicate LeftSilent(c: Context) {
    match c
    case Hole => true
    case Around(left, inner, _) => FindFirst(left).None? && LeftSilent(inner)
  }

  /** Nothing comes before the error in the hole, and what comes after it is in
      neither class. */
  ghost predicate KeepsClass(c: Context) {
    LeftSilent(c) && !Classified(FindReturn(Plug(c, Plain(Generic))))
  }

  /** With nothing before it, a return code under the hole is the one found. */
  lemma {:induction false} HoleComesFirst(c: Context, e: Error)
    requires LeftSilent(c) && FindReturn(e).Some?
    ensures FindReturn(Plug(c, e)) == FindReturn(e)
  {
    match c
    case Hole =>
    case Around(left, inner, right) =>
      HoleComesFirst(inner, e);
      FindReturnAround(left, Plug(inner, e), right);
  }

  /** A return code before the path hides the hole for good. */
  lemma {:induction false} LeftHides(c: Context) returns (rc: int)
    requires !LeftSilent(c)
    ensures forall e :: FindReturn(Plug(c, e)) == Some(rc)
  {
    var Around(left, inner, right) := c;
    rc := if FindFirst(left).Some? then FindFirst(left).value else 0;
    if FindFirst(left).None? {
      rc := LeftHides(inner);
    }
    forall e ensures FindReturn(Plug(c, e)) == Some(rc) {
      FindReturnAround(left, Plug(inner, e), right);
    }
  }

  /** Retry decisions taken on a sanitized and wrapped error are those of the
      error underneath, and the two classes never overlap. */
  lemma WrappingKeepsClass(c: Context, e: Error)
    requires KeepsClass(c)
    ensures IsConnectionError(Plug(c, Sanitize(e))) <==> IsConnectionError(e)
    ensures IsEmptyQueueError(Plug(c, Sanitize(e))) <==> IsEmptyQueueError(e)
    ensures !(IsConnectionError(Plug(c, Sanitize(e))) && IsEmptyQueueError(Plug(c, Sanitize(e))))
  {
    if FindReturn(e).Some? {
      HoleComesFirst(c, e);
    }
  }

  /** So a decision on any error built that way comes down to the number underneath. */
  lemma ClassOfReturn(c: Context, cc: int, rc: int)
    requires KeepsClass(c)
    ensures IsConnectionError(Plug(c, Sanitize(MQReturn(cc, rc)))) <==>
            || rc == 2009 || rc == 2018 || rc == 2059 || rc == 2161 || rc == 2162 || rc == 2202
            || rc == 2203 || rc == 2223 || rc == 2273 || rc == 2521 || rc == 2528
    ensures IsEmptyQueueError(Plug(c, Sanitize(MQReturn(cc, rc)))) <==> rc == 2033
  {
    WrappingKeepsClass(c, MQReturn(cc, rc));
  }

  lemma SilentKeepsClass(c: Context)
    requires Silent(c)
    ensures KeepsClass(c)
  {
    SilentIsLeftSilent(c);
    WrappingKeepsReturn(c, Plain(Generic));
  }

  lemma {:induction false} SilentIsLeftSilent(c: Context)
    requires Silent(c)
    ensures LeftSilent(c)
  {
    if c.Around? {
      SilentIsLeftSilent(c.inner);
    }
  }

  ghost predicate SameClass(c: Context, e: Error) {
    && (IsConnectionError(Plug(c, Sanitize(e))) <==> IsConnectionError(e))
    && (IsEmptyQueueError(Plug(c, Sanitize(e))) <==> IsEmptyQueueError(e))
  }

  /** And only then: a wrapping keeps both classes of every error exactly when no return
      code stands left of the path and the first one right of it, if any, is in neither
      class. */
  lemma KeepsClassIff(c: Context)
    ensures KeepsClass(c) <==> forall e :: SameClass(c, e)
  {
    if KeepsClass(c) {
      forall e ensures SameClass(c, e) {
        WrappingKeepsClass(c, e);
      }
    } else if LeftSilent(c) {
      assert !SameClass(c, Plain(Generic));
    } else {
      var rc := LeftHides(c);
      var broken, empty := MQReturn(2, 2009), MQReturn(2, NO_MSG_AVAILABLE);
      assert FindReturn(Plug(c, Sanitize(broken))) == FindReturn(Plug(c, Sanitize(empty)));
      assert !SameClass(c, broken) || !SameClass(c, empty);
    }
  }
}
