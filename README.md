# terrors, modelled in Dafny

`terrors` is a Go library of typed errors. Each error carries a
classification (`Type`: Unknown, Invalid, Permission, Exist, NotExist,
Internal, Unauthorized). It is built as a base error (`New`, `Errorf`) or by
wrapping a prior error. `WithStack` adds a fresh stack snapshot. `WithMessage`
adds a message. `Wrap` and `Wrapf` add both, as a stack layer over a message
layer. `Cause` walks the cause chain to its root. `TypeOf` reads the
classification of the outermost layer only.

The model is in two modules:

- `Terrors` (terrors.dfy): the data model and the operations.
  - The three variants `fundamental`, `withStack` and `withMessage` are the
    constructors `Fundamental`, `StackWrapper` and `MessageWrapper` of the
    datatype `Error`. `Foreign(msg)` stands for an error from outside the
    library, which has only an `Error()` method.
  - A Go `error` value that may be nil is an `Option<Error>`; `None` is nil.
  - Go's capability tests become the predicates `HasType`, `HasCause` and
    `HasStackTrace`. The methods become `TypeMethod`, `Message` (Go's
    `Error()`), `CauseMethod` and `StackTraceMethod`.
  - `Cause` is a method with the source's loop. It is proved equal to the
    recursive function `RootCause`.
- `TerrorsProperties` (properties.dfy): lemmas that relate the operations.

The stack capture is a parameter `raw: seq<Frame>` of every operation that
captures a stack (`New`, `Errorf`, `WithStack`, `Wrap`, `Wrapf`). It
stands for what the stack library returns at the call. The model states only
that the first frame is dropped (`stack[1:]`). The capture always holds at
least that frame, because the constructor asking for it is on the stack. So
`New` and `Errorf` require `|raw| >= 1`, and `WithStack`, `Wrap` and `Wrapf`
require it only when the error is not nil, since only then does the source
take a capture. `WithMessage` takes no capture.

`Errorf` and `Wrapf` take their message already formatted, so they build the
same values as `New` and `Wrap`.

The package function `Cause` walks the whole chain, so `Cause(Wrap(T, E, M))`
is the root of `E`. That equals `E` only when `E` has no `Cause()` method.
What reaches `E` in exactly two steps is the `Cause()` method called twice
(`Terrors.Wrap`, `CauseN(r.value, 2) == err.value`). The package function's
behaviour is `RootCauseThroughWrappers`.

## Model

| member | source | states |
|---|---|---|
| `Terrors.Ordinal` | terrors.go:10-20 | the `iota` integer of a classification is at most 6 and is 0 exactly for TypeUnknown, the zero value |
| `Terrors.CauseMethod` | terrors.go:93-95 | a wrapper's `Cause()` is strictly smaller and one link shorter, so cause chains are finite and acyclic (same for `withMessage.Cause`, terrors.go:154-156) |
| `Terrors.CauseN` | terrors.go:177-183 | calling `Cause()` k times, for k up to the chain length, leaves exactly that many fewer links |
| `Terrors.DropCaptureFrame` | terrors.go:27-28 | the stored trace is the raw capture without its first frame: one frame shorter, frame i is raw frame i+1 |
| `Terrors.New` | terrors.go:26-28 | never nil; `TypeOf` is `t`; `Error()` is `msg`; no `Cause()`; `StackTrace()` is `raw[1:]` |
| `Terrors.Errorf` | terrors.go:31-35 | with the formatted message, the same value as `New` |
| `Terrors.WithStack` | terrors.go:71-99 | nil exactly for nil; otherwise `TypeOf` is `t`, `Error()` is the cause's, `Cause()` is `err` itself, `StackTrace()` is `raw[1:]` |
| `Terrors.WithMessage` | terrors.go:133-156 | nil exactly for nil; otherwise `TypeOf` is `t`, `Error()` is `msg + ": " + err.Error()`, `Cause()` is `err`, no stack trace |
| `Terrors.Wrap` | terrors.go:117-123 | nil exactly for nil; otherwise `TypeOf` is `t`, `Error()` is `msg + ": " + err.Error()`, stack `raw[1:]`, `Cause()` is the message layer `{t, err, msg}`, two `Cause()` calls reach `err` |
| `Terrors.Wrapf` | terrors.go:125-131 | with the formatted message, the same value as `Wrap` |
| `Terrors.TypeOf` | terrors.go:187-198 | the result is the outermost `Type()` when there is one, and a result other than TypeUnknown always comes from it; nil and foreign errors give TypeUnknown (`TypeOfWithoutTypeMethod`, `TypeOfKnownHasTypeMethod`, `TypeOfReadsOutermostLayer`) |
| `Terrors.Message` | terrors.go:47-49 | the three `Error()` methods (also terrors.go:89-91 and 150-152): literal, delegated, `msg + ": " + cause.Error()`; a wrapper's message is at least as long as its cause's; further characterised by `WrapperMessageEndsWithCause`, by the wrappers' `ensures` and `MessageEndsWithRootMessage` |
| `Terrors.RootCause` | terrors.go:172-185 | the walk returns nil exactly for nil |
| `Terrors.Cause` | terrors.go:172-185 | the loop computes `RootCause`, returns nil exactly for nil, and its result has no `Cause()` method |
| `Terrors.OrdinalInjective` | terrors.go:12-20 | distinct classifications have distinct integers |
| `TerrorsProperties.RootCauseHasNoCause` | terrors.go:177-184 | the root never has a `Cause()` method; an error without one is its own root (`fundamental` or a foreign error) |
| `TerrorsProperties.RootCauseIdempotent` | terrors.go:172-185 | `Cause(Cause(e)) == Cause(e)` |
| `TerrorsProperties.RootCauseWalksWholeChain` | terrors.go:177-183 | the root is reached by exactly as many `Cause()` calls as the chain has links |
| `TerrorsProperties.ChainBeforeRootHasCause` | terrors.go:178-182 | every error before the root on the chain has a `Cause()` method, so the loop cannot stop early |
| `TerrorsProperties.RootCauseThroughWrappers` | terrors.go:117-138 | `WithStack`, `WithMessage`, `Wrap` and `Wrapf` leave `Cause` of the result equal to `Cause` of the input |
| `TerrorsProperties.RootCauseOfWrappedNew` | terrors.go:172-185 | `Cause(Wrap(t, New(t0, m0), m))` is the `New` value |
| `TerrorsProperties.WrapperLinks` | terrors.go:71-137 | `WithStack` (line 76) and `WithMessage` (line 137) add one link, `Wrap` (line 122) adds two |
| `TerrorsProperties.WrapperMessageEndsWithCause` | terrors.go:89-91 | a wrapper's `Error()` ends with its cause's `Error()`: delegated by `withStack`, prefixed by `withMessage` (terrors.go:150-152) |
| `TerrorsProperties.MessageEndsWithRootMessage` | terrors.go:150-152 | every error's `Error()` ends with its root cause's `Error()` |
| `TerrorsProperties.WrapIsWithStackOverWithMessage` | terrors.go:122 | `Wrap(t, e, m)` equals `WithStack(t, WithMessage(t, e, m))` given the same capture |
| `TerrorsProperties.TypeOfReadsOutermostLayer` | terrors.go:187-198 | `TypeOf(WithStack(a, New(b, x)))`, and the same for `WithMessage` and `Wrap`, is `a` whatever `b` is |
| `TerrorsProperties.TypeOfWithoutTypeMethod` | terrors.go:192-195 | `TypeOf` is TypeUnknown for nil and for a foreign error; a stack layer over a foreign error gives it a classification |
| `TerrorsProperties.TypeOfKnownHasTypeMethod` | terrors.go:192-197 | a classification other than TypeUnknown comes only from the outermost `Type()` method |
| `TerrorsProperties.WrapInnerLayerType` | terrors.go:122 | the inner message layer of a `Wrap` carries the same classification as the outer layer |
| `TerrorsProperties.LoadConfigScenario` | terrors.go:117-123 | wrapping `New(NotExist, "file missing")` with `Wrap(Internal, ..., "load config")` gives message `"load config: file missing"`, type Internal, and root the `New` value |

## Left out

- Stack capture through the stack library (terrors.go:27, 33, 75, 121, 129) is runtime stack introspection in foreign code. It is the parameter `raw`, and frames are opaque program counters.
- The `Format` methods (terrors.go:55-69, 101-115, 158-170) write to a formatter and use Go's `%q` quoting and the stack library's trace rendering. These are I/O and foreign formatting.
- `fmt.Sprintf` in `Errorf` and `Wrapf` (terrors.go:32, 130) is foreign formatting. The formatted message is taken as an argument.
- Go pointer identity and typed-nil interface values are not modelled. Errors are compared structurally.
- Go allows `Type(n)` for any integer. The model's `Type` holds only the seven declared constants.
- Foreign errors are modelled with an `Error()` method only. A foreign error that has its own `Cause()` or `Type()` method, such as one from the stack library, is not modelled.
