/** A model of a typed-error library: errors tagged with a classification,
    built as a base error or by wrapping a prior error with a fresh stack
    snapshot and/or a message, and inspected by walking the cause chain
    (Cause) or by reading the outermost classification (TypeOf).

    Go's `error` interface value becomes `Option<Error>`: `None` is nil.
    Go's dynamic capability tests (does this value have a `Type()`, a
    `Cause()`, a `StackTrace()` method?) become the predicates HasType,
    HasCause and HasStackTrace, and the methods themselves the functions
    TypeMethod, Message, CauseMethod and StackTraceMethod. */
module Terrors {

  /** The closed classification; declared with `iota`, so TypeUnknown is
      the zero value. */
  datatype Type =
    | TypeUnknown
    | TypeInvalid
    | TypePermission
    | TypeExist
    | TypeNotExist
    | TypeInternal
    | TypeUnauthorized

  /** The integer each classification has in the source's `iota` block. */
  function Ordinal(t: Type): (n: nat)
    ensures n <= 6
    ensures n == 0 <==> t == TypeUnknown
  {
    match t
    case TypeUnknown => 0
    case TypeInvalid => 1
    case TypePermission => 2
    case TypeExist => 3
    case TypeNotExist => 4
    case TypeInternal => 5
    case TypeUnauthorized => 6
  }

  /** Distinct classifications have distinct integers. */
  lemma OrdinalInjective(a: Type, b: Type)
    ensures Ordinal(a) == Ordinal(b) ==> a == b
  {
  }

  /** One call-site of a captured stack, a program counter as in the stack
      library the source uses. The frames are opaque here. */
  datatype Frame = Frame(pc: nat)

  type StackTrace = seq<Frame>

  /** Go's nilable interface value: `None` is nil. */
  datatype Option<T> = None | Some(value: T)

  /** The three variants of the library, plus any error coming from outside
      it, which has an `Error()` method and nothing else.
      A wrapper's cause is never nil: every wrapping operation returns nil
      instead of building a wrapper around nil. */
  datatype Error =
    | Fundamental(t: Type, msg: string, stack: StackTrace)
    | StackWrapper(t: Type, cause: Error, stack: StackTrace)
    | MessageWrapper(t: Type, cause: Error, msg: string)
    | Foreign(msg: string)

  // ---------------------------------------------------------------------
  // Capabilities of the variants

  /** Has a `Type()` method: every variant of the library. */
  predicate HasType(e: Error) {
    !e.Foreign?
  }

  /** Has a `Cause()` method: the two wrappers. */
  predicate HasCause(e: Error) {
    e.StackWrapper? || e.MessageWrapper?
  }

  /** Has a `StackTrace()` method: the base error and the stack wrapper. */
  predicate HasStackTrace(e: Error) {
    e.Fundamental? || e.StackWrapper?
  }

  /** The `Type()` method of a variant that has one. */
  function TypeMethod(e: Error): Type
    requires HasType(e)
  {
    e.t
  }

  /** `s` ends with `suffix`. */
  predicate EndsWith(s: string, suffix: string) {
    |suffix| <= |s| && s[|s| - |suffix|..] == suffix
  }

  /** The `Error()` method: literal for the base and foreign errors,
      delegated to the cause by the stack wrapper, and
      `msg + ": " + cause.Error()` for the message wrapper. */
  function Message(e: Error): (r: string)
    ensures HasCause(e) ==> |Message(CauseMethod(e))| <= |r|
  {
    match e
    case Fundamental(_, msg, _) => msg
    case StackWrapper(_, cause, _) => Message(cause)
    case MessageWrapper(_, cause, msg) => msg + ": " + Message(cause)
    case Foreign(msg) => msg
  }

  /** The `Cause()` method of a wrapper. The cause is structurally smaller
      and has one link fewer, so a cause chain is finite and acyclic. */
  function CauseMethod(e: Error): (c: Error)
    requires HasCause(e)
    ensures c < e
    ensures Links(c) + 1 == Links(e)
  {
    e.cause
  }

  /** The `StackTrace()` method of a variant that has one. */
  function StackTraceMethod(e: Error): StackTrace
    requires HasStackTrace(e)
  {
    e.stack
  }

  /** Number of `Cause()` links from `e` to the first error without one. */
  function Links(e: Error): nat
  {
    match e
    case StackWrapper(_, cause, _) => 1 + Links(cause)
    case MessageWrapper(_, cause, _) => 1 + Links(cause)
    case _ => 0
  }

  /** The error reached from `e` by calling `Cause()` `k` times. */
  function CauseN(e: Error, k: nat): (r: Error)
    requires k <= Links(e)
    ensures Links(r) + k == Links(e)
    ensures k > 0 ==> r < e
    decreases k
  {
    if k == 0 then e else CauseN(CauseMethod(e), k - 1)
  }

  // ---------------------------------------------------------------------
  // Stack capture

  /** The capture of the stack library starts at the frame of the library
      function that asked for it; every constructor drops that one frame
      (`stack[1:]`), so the stored trace starts at the caller. The slice
      would panic on an empty capture, which cannot occur because the
      asking function is itself on the stack. */
  function DropCaptureFrame(raw: StackTrace): (s: StackTrace)
    requires |raw| >= 1
    ensures |s| + 1 == |raw|
    ensures forall i :: 0 <= i < |s| ==> s[i] == raw[i + 1]
  {
    raw[1..]
  }

  // ---------------------------------------------------------------------
  // Constructors and wrappers. `raw` is the capture the source takes at the
  // call; it is only taken when the result is not nil.

  /** `New(t, msg)`: a base error. */
  function New(t: Type, msg: string, raw: StackTrace): (r: Option<Error>)
    requires |raw| >= 1
    ensures r.Some? && r.value.Fundamental?
    ensures TypeOf(r) == t
    ensures Message(r.value) == msg
    ensures !HasCause(r.value)
    ensures HasStackTrace(r.value) && StackTraceMethod(r.value) == raw[1..]
  {
    Some(Fundamental(t, msg, DropCaptureFrame(raw)))
  }

  /** `Errorf(t, format, args...)`, with `msg` the already formatted
      message: it builds the same value as `New`. */
  function Errorf(t: Type, msg: string, raw: StackTrace): (r: Option<Error>)
    requires |raw| >= 1
    ensures r == New(t, msg, raw)
  {
    Some(Fundamental(t, msg, DropCaptureFrame(raw)))
  }

  /** `WithStack(t, err)`: nil for nil; otherwise a layer with a fresh stack
      whose message is the cause's and whose cause is `err` itself. */
  function WithStack(t: Type, err: Option<Error>, raw: StackTrace): (r: Option<Error>)
    requires err.Some? ==> |raw| >= 1
    ensures r.None? <==> err.None?
    ensures err.Some? ==>
      && TypeOf(r) == t
      && Message(r.value) == Message(err.value)
      && HasCause(r.value) && CauseMethod(r.value) == err.value
      && HasStackTrace(r.value) && StackTraceMethod(r.value) == raw[1..]
  {
    match err
    case None => None
    case Some(e) => Some(StackWrapper(t, e, DropCaptureFrame(raw)))
  }

  /** `WithMessage(t, err, msg)`: nil for nil; otherwise a layer that
      prefixes `msg + ": "` to the cause's message and has no stack. */
  function WithMessage(t: Type, err: Option<Error>, msg: string): (r: Option<Error>)
    ensures r.None? <==> err.None?
    ensures err.Some? ==>
      && TypeOf(r) == t
      && Message(r.value) == msg + ": " + Message(err.value)
      && HasCause(r.value) && CauseMethod(r.value) == err.value
      && !HasStackTrace(r.value)
  {
    match err
    case None => None
    case Some(e) => Some(MessageWrapper(t, e, msg))
  }

  /** `Wrap(t, err, msg)`: nil for nil; otherwise a stack layer over a
      message layer over `err`, both layers classified `t`. */
  function Wrap(t: Type, err: Option<Error>, msg: string, raw: StackTrace): (r: Option<Error>)
    requires err.Some? ==> |raw| >= 1
    ensures r.None? <==> err.None?
    ensures err.Some? ==>
      && TypeOf(r) == t
      && Message(r.value) == msg + ": " + Message(err.value)
      && HasStackTrace(r.value) && StackTraceMethod(r.value) == raw[1..]
      && HasCause(r.value) && CauseMethod(r.value) == MessageWrapper(t, err.value, msg)
      && CauseN(r.value, 2) == err.value
  {
    match err
    case None => None
    case Some(e) => Some(StackWrapper(t, MessageWrapper(t, e, msg), DropCaptureFrame(raw)))
  }

  /** `Wrapf(t, err, format, args...)`, with `msg` the already formatted
      message: it builds the same value as `Wrap`. */
  function Wrapf(t: Type, err: Option<Error>, msg: string, raw: StackTrace): (r: Option<Error>)
    requires err.Some? ==> |raw| >= 1
    ensures r == Wrap(t, err, msg, raw)
  {
    match err
    case None => None
    case Some(e) => Some(StackWrapper(t, MessageWrapper(t, e, msg), DropCaptureFrame(raw)))
  }

  // ---------------------------------------------------------------------
  // Inspectors

  /** `TypeOf(err)`: the `Type()` of `err` when it has one, otherwise
      TypeUnknown; the cause chain is not consulted. */
  function TypeOf(err: Option<Error>): (r: Type)
    ensures err.Some? && HasType(err.value) ==> r == TypeMethod(err.value)
    ensures r != TypeUnknown ==> err.Some? && HasType(err.value)
  {
    match err
    case Some(e) => if HasType(e) then TypeMethod(e) else TypeUnknown
    case None => TypeUnknown
  }

  /** What `Cause(err)` returns: follow `Cause()` while the current error
      has one. */
  function RootCause(err: Option<Error>): (r: Option<Error>)
    ensures r.None? <==> err.None?
    decreases if err.Some? then Links(err.value) else 0
  {
    if err.Some? && HasCause(err.value) then RootCause(Some(CauseMethod(err.value)))
    else err
  }

  /** `Cause(err)`: the source's loop, which replaces `err` by its cause
      until it is nil or has no `Cause()` method. */
  method Cause(err: Option<Error>) returns (r: Option<Error>)
    ensures r == RootCause(err)
    ensures r.None? <==> err.None?
    ensures r.Some? ==> !HasCause(r.value)
  {
    r := err;
    while r.Some?
      invariant RootCause(r) == RootCause(err)
      invariant r.None? <==> err.None?
      decreases if r.Some? then Links(r.value) else 0
    {
      if !HasCause(r.value) {
        break;
      }
      r := Some(CauseMethod(r.value));
    }
  }
}
