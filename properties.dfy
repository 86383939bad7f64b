/** Properties of the typed-error model that relate several operations:
    what the chain walk returns, how messages compose, and which layer
    TypeOf reads. */
module TerrorsProperties {
  import opened Terrors

  // ---------------------------------------------------------------------
  // Cause

  /** Cause keeps nil as nil, stops at once on an error without a `Cause()`
      method, and never returns an error that has one. */
  lemma {:induction false} RootCauseHasNoCause(err: Option<Error>)
    ensures RootCause(err).Some? ==> !HasCause(RootCause(err).value)
    ensures err.Some? && !HasCause(err.value) ==> RootCause(err) == err
    decreases if err.Some? then Links(err.value) else 0
  {
    if err.Some? && HasCause(err.value) {
      RootCauseHasNoCause(Some(CauseMethod(err.value)));
    }
  }

  /** Cause is idempotent: its result is a fixed point. */
  lemma RootCauseIdempotent(err: Option<Error>)
    ensures RootCause(RootCause(err)) == RootCause(err)
  {
    RootCauseHasNoCause(err);
  }

  /** Cause walks exactly `Links(e)` links: the root is the error reached
      by calling `Cause()` that many times. */
  lemma {:induction false} RootCauseWalksWholeChain(e: Error)
    ensures RootCause(Some(e)) == Some(CauseN(e, Links(e)))
  {
    if HasCause(e) {
      var c := CauseMethod(e);
      RootCauseWalksWholeChain(c);
      assert CauseN(e, Links(e)) == CauseN(c, Links(c));
    }
  }

  /** Every error on the chain strictly before the root has a `Cause()`
      method, so the walk cannot stop earlier. */
  lemma {:induction false} ChainBeforeRootHasCause(e: Error, k: nat)
    requires k < Links(e)
    ensures HasCause(CauseN(e, k))
    decreases k
  {
    if k > 0 {
      ChainBeforeRootHasCause(CauseMethod(e), k - 1);
    }
  }

  /** Wrapping with any operation leaves the root cause unchanged. */
  lemma RootCauseThroughWrappers(t: Type, err: Option<Error>, msg: string, raw: StackTrace)
    requires |raw| >= 1
    ensures RootCause(WithStack(t, err, raw)) == RootCause(err)
    ensures RootCause(WithMessage(t, err, msg)) == RootCause(err)
    ensures RootCause(Wrap(t, err, msg, raw)) == RootCause(err)
    ensures RootCause(Wrapf(t, err, msg, raw)) == RootCause(err)
  {
  }

  /** Cause of a wrapped base error is that base error. */
  lemma RootCauseOfWrappedNew(t: Type, t0: Type, m0: string, raw0: StackTrace, m: string, raw: StackTrace)
    requires |raw0| >= 1 && |raw| >= 1
    ensures RootCause(Wrap(t, New(t0, m0, raw0), m, raw)) == New(t0, m0, raw0)
  {
    RootCauseHasNoCause(New(t0, m0, raw0));
  }

  /** Each wrapper adds its own number of links: one for WithStack and
      WithMessage, two for Wrap. */
  lemma WrapperLinks(t: Type, e: Error, msg: string, raw: StackTrace)
    requires |raw| >= 1
    ensures Links(WithStack(t, Some(e), raw).value) == Links(e) + 1
    ensures Links(WithMessage(t, Some(e), msg).value) == Links(e) + 1
    ensures Links(Wrap(t, Some(e), msg, raw).value) == Links(e) + 2
  {
  }

  // ---------------------------------------------------------------------
  // Messages

  lemma EndsWithTransitive(a: string, b: string, c: string)
    requires EndsWith(a, b) && EndsWith(b, c)
    ensures EndsWith(a, c)
  {
    assert a[|a| - |c|..] == a[|a| - |b|..][|b| - |c|..];
  }

  /** A wrapper's `Error()` ends with its cause's: the stack layer
      delegates and the message layer prepends `msg + ": "`. */
  lemma WrapperMessageEndsWithCause(e: Error)
    requires HasCause(e)
    ensures EndsWith(Message(e), Message(CauseMethod(e)))
  {
    if e.MessageWrapper? {
      var whole, c := Message(e), Message(e.cause);
      assert whole == (e.msg + ": ") + c;
      assert whole[|whole| - |c|..] == c;
    }
  }

  /** The message of an error always ends with the message of its root
      cause: wrappers only delegate or prepend. */
  lemma {:induction false} MessageEndsWithRootMessage(e: Error)
    ensures EndsWith(Message(e), Message(RootCause(Some(e)).value))
    decreases Links(e)
  {
    RootCauseHasNoCause(Some(e));
    if HasCause(e) {
      var c := CauseMethod(e);
      MessageEndsWithRootMessage(c);
      WrapperMessageEndsWithCause(e);
      EndsWithTransitive(Message(e), Message(c), Message(RootCause(Some(c)).value));
    }
  }

  /** Wrap is WithStack over WithMessage with the same classification. */
  lemma WrapIsWithStackOverWithMessage(t: Type, err: Option<Error>, msg: string, raw: StackTrace)
    requires |raw| >= 1
    ensures Wrap(t, err, msg, raw) == WithStack(t, WithMessage(t, err, msg), raw)
  {
  }

  // ---------------------------------------------------------------------
  // TypeOf

  /** TypeOf reads the outermost layer only: the classification of the
      cause is shadowed, whatever it is. */
  lemma TypeOfReadsOutermostLayer(a: Type, b: Type, x: string, msg: string, raw0: StackTrace, raw: StackTrace)
    requires |raw0| >= 1 && |raw| >= 1
    ensures TypeOf(WithStack(a, New(b, x, raw0), raw)) == a
    ensures TypeOf(WithMessage(a, New(b, x, raw0), msg)) == a
    ensures TypeOf(Wrap(a, New(b, x, raw0), msg, raw)) == a
  {
  }

  /** TypeOf is TypeUnknown, the zero value of the classification, for nil
      and for a foreign error; a library wrapper gives a foreign error a
      classification. */
  lemma TypeOfWithoutTypeMethod(m: string, a: Type, raw: StackTrace)
    requires |raw| >= 1
    ensures TypeOf(None) == TypeUnknown && Ordinal(TypeOf(None)) == 0
    ensures TypeOf(Some(Foreign(m))) == TypeUnknown
    ensures TypeOf(WithStack(a, Some(Foreign(m)), raw)) == a
  {
  }

  /** A known classification comes only from a `Type()` method. */
  lemma TypeOfKnownHasTypeMethod(err: Option<Error>)
    requires TypeOf(err) != TypeUnknown
    ensures err.Some? && HasType(err.value) && TypeMethod(err.value) == TypeOf(err)
  {
  }

  /** Both layers of a Wrap carry the classification, but only the outer
      one is ever read by TypeOf. */
  lemma WrapInnerLayerType(t: Type, e: Error, msg: string, raw: StackTrace)
    requires |raw| >= 1
    ensures TypeOf(Some(CauseMethod(Wrap(t, Some(e), msg, raw).value))) == t
  {
  }

  // ---------------------------------------------------------------------
  // A worked scenario

  lemma LoadConfigScenario(raw0: StackTrace, raw: StackTrace)
    requires |raw0| >= 1 && |raw| >= 1
    ensures Message(Wrap(TypeInternal, New(TypeNotExist, "file missing", raw0), "load config", raw).value)
         == "load config: file missing"
    ensures TypeOf(Wrap(TypeInternal, New(TypeNotExist, "file missing", raw0), "load config", raw)) == TypeInternal
    ensures RootCause(Wrap(TypeInternal, New(TypeNotExist, "file missing", raw0), "load config", raw))
         == New(TypeNotExist, "file missing", raw0)
    ensures TypeOf(New(TypeNotExist, "file missing", raw0)) == TypeNotExist
  {
    RootCauseOfWrappedNew(TypeInternal, TypeNotExist, "file missing", raw0, "load config", raw);
  }
}
