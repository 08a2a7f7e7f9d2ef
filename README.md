# bowl holders in Dafny

A model of the three non-copyable holder classes of the bowl C++ library
(only `Expected` can also be moved) and
the `CHECK_ASSIGN` macro built on them:

- `Unexpected<E>` (module `BowlUnexpected`): a single-use carrier of one
  error value; `unpack()` hands it out once.
- `MaybeError<E>` (module `BowlMaybeError`): "ok, no payload" or "error,
  payload E"; the error is consumed at most once, by `unpack_error()` or
  `throw_if_error()`.
- `Expected<T, E>` (module `BowlExpected`): a T or an E selected by `ok_`,
  with one shared `is_moved_` flag; `unpack_ok()`/`unpack_error()` check the
  flag first and the branch second; a move constructor and a move assignment.
- `CHECK_ASSIGN` (module `BowlMacros`): evaluate an Expected, return an
  `Unexpected` wrapping its error, or bind its success value.

Each holder appears twice. A datatype of its fields (`WrapperState`,
`StatusState`, `ResultState`) with one function per operation states what
a call returns and what state it leaves; lemmas over whole sequences of
calls state the consumption discipline (handed out at most once, later
calls throw MovedOut, wrong-branch calls consume nothing, `ok_` never
changes). A class with the C++ fields (`value`/`isMoved`, `ok`/`isMoved`/
`slot`, `ok`/`storage`/`isMoved`) implements each operation imperatively,
as the source does, and its `ensures` ties the returned outcome and the new
fields to that function of the old fields.

Exceptions become results: every consuming call returns an
`Outcome<V, E>` (module `BowlSignals`), either `Value(v)` or the exception
thrown — `MovedOut` (bowl::MovedOutException), `FalseState`
(bowl::FalseStateException), `RuntimeError` (the `std::runtime_error` of
`MaybeError::unpack_error` on an ok holder) or `Raised(e)` (the error's
own exception from `throw_as_exception`). The anonymous unions become
datatypes: `ErrorSlot = Placeholder | Held(e)` for MaybeError and
`Storage = Vacant | Live(OkValue(t) | ErrValue(e))` for Expected, where
`Vacant` is a holder move-constructed from a consumed holder, whose union
has no constructed member.

A move of an Expected (include/bowl/expected.hpp:24-39) copies the
source's tag, flag and payload and does not mark the source consumed
(`MoveDoesNotConsumeSource`, and the object scenario `MoveScenario`); no
test moves an Expected.

The model follows the code where tests/test.cpp expects otherwise: both
wrong-branch unpacks of an Expected throw `FalseStateException`
(include/bowl/exception.hpp:16-23); `MaybeError::unpack_error` on an ok
holder throws `std::runtime_error`; Expected has no `throw_if_error`, and
neither Unexpected nor MaybeError can be moved.

## Model

| member | source | states |
|---|---|---|
| BowlUnexpected.Wrap | include/bowl/unexpected.hpp:12-14 | a new wrapper is unconsumed and holds exactly the value given |
| BowlUnexpected.Unexpected.constructor | include/bowl/unexpected.hpp:12-14 | the only constructor takes a value; the object starts unconsumed holding it |
| BowlUnexpected.UnpackStep | include/bowl/unexpected.hpp:24-31 | hands the error out iff the wrapper is unconsumed, leaves it consumed in every case, and a failing call throws MovedOut and changes nothing |
| BowlUnexpected.Unexpected.Unpack | include/bowl/unexpected.hpp:24-32 | the imperative `unpack()` returns and updates exactly as UnpackStep says |
| BowlUnexpected.ConsumedWrapperRun | include/bowl/unexpected.hpp:26-29 | on a consumed wrapper any number of `unpack()` calls all throw MovedOut and leave the state unchanged |
| BowlUnexpected.UnpackAtMostOnce | include/bowl/unexpected.hpp:24-31 | over any number of calls the error is handed out at most once, by the first call, every later call throws MovedOut, and `is_moved_` never returns to false |
| BowlMaybeError.Success | include/bowl/maybe_error.hpp:32-34 | the default constructor gives an unconsumed ok holder with no error live |
| BowlMaybeError.Failure | include/bowl/maybe_error.hpp:24-26 | construction from an error gives an unconsumed error holder holding that error |
| BowlMaybeError.FromWrapper | include/bowl/maybe_error.hpp:28-30 | construction from an Unexpected consumes the wrapper (a later `unpack()` on it throws MovedOut) and yields the error holder of its value, or throws MovedOut if the wrapper was already consumed |
| BowlMaybeError.UnpackErrorStep | include/bowl/maybe_error.hpp:41-52 | returns the stored error iff the holder is an unconsumed error holder and then marks it consumed; a consumed holder throws MovedOut, an ok holder throws runtime_error, and a failing call changes nothing; `ok_` and the payload never change |
| BowlMaybeError.ThrowIfErrorStep | include/bowl/maybe_error.hpp:54-62 | a no-op that returns normally on an ok holder; on an unconsumed error holder raises that error and marks it consumed; on a consumed error holder throws MovedOut and changes nothing |
| BowlMaybeError.Teardown | include/bowl/maybe_error.hpp:64-70 | the destructor destroys an error exactly when `ok_` is false, and it is the held error |
| BowlMaybeError.OkStatusRun | include/bowl/maybe_error.hpp:41-62 | on an ok holder, however often called in any order, `unpack_error()` always throws runtime_error, `throw_if_error()` always returns, and the state never changes |
| BowlMaybeError.ConsumedStatusRun | include/bowl/maybe_error.hpp:73-79 | on a consumed holder every `unpack_error()` and `throw_if_error()` throws MovedOut and nothing changes |
| BowlMaybeError.ErrorHandedOutAtMostOnce | include/bowl/maybe_error.hpp:41-62 | on an error holder any sequence of calls hands the error out at most once, by the first call (returned or raised), every later call throws MovedOut, `ok_` stays fixed and `is_moved_` only goes from false to true |
| BowlMaybeError.MaybeError.constructor | include/bowl/maybe_error.hpp:32-34 | the object starts as Success |
| BowlMaybeError.MaybeError.FromError | include/bowl/maybe_error.hpp:24-26 | the object starts as Failure of the given error |
| BowlMaybeError.MaybeError.FromUnexpected | include/bowl/maybe_error.hpp:28-30 | unpacks the wrapper object and builds a fresh holder, or throws MovedOut, as FromWrapper says |
| BowlMaybeError.MaybeError.Ok | include/bowl/maybe_error.hpp:36-39 | returns `ok_` and changes nothing |
| BowlMaybeError.MaybeError.CheckIsMoved | include/bowl/maybe_error.hpp:73-79 | throws MovedOut exactly when the holder is consumed |
| BowlMaybeError.MaybeError.UnpackError | include/bowl/maybe_error.hpp:41-52 | the imperative `unpack_error()` returns and updates exactly as UnpackErrorStep says and keeps the holder invariant |
| BowlMaybeError.MaybeError.ThrowIfError | include/bowl/maybe_error.hpp:54-62 | the imperative `throw_if_error()` returns and updates exactly as ThrowIfErrorStep says and keeps the holder invariant |
| BowlExpected.OkHolder | include/bowl/expected.hpp:16-18 | construction from a T gives an unconsumed ok holder whose live member is that value |
| BowlExpected.ErrorHolder | include/bowl/expected.hpp:12-14 | the error-branch constructor gives an unconsumed error holder whose live member is that error |
| BowlExpected.FromWrapper | include/bowl/expected.hpp:12-14 | construction from an Unexpected consumes the wrapper and yields the error holder of its value, or throws MovedOut if the wrapper was already consumed |
| BowlExpected.UnpackOkStep | include/bowl/expected.hpp:66-80 | returns the stored T iff the holder is ok and unconsumed, then marks it consumed; the moved check comes first (MovedOut), then the branch check (FalseState); a failing call changes nothing; `ok_` and the union never change |
| BowlExpected.UnpackErrorStep | include/bowl/expected.hpp:82-96 | the mirror image for the error branch |
| BowlExpected.MoveConstruct | include/bowl/expected.hpp:24-39 | the new holder takes the source's tag and flag, takes its payload only when the source is unconsumed, and is well formed when the source is |
| BowlExpected.MoveAssign | include/bowl/expected.hpp:41-59 | the destination takes the source's tag and flag, takes its payload only when the source is unconsumed and otherwise keeps its own union |
| BowlExpected.TearsDownOk | include/bowl/expected.hpp:98-108 | the destructor destroys the member named by `ok_`, which in a consistent holder is exactly the live one |
| BowlExpected.ConsumedRun | include/bowl/expected.hpp:68-71 | on a consumed holder every unpack of either branch throws MovedOut and nothing changes |
| BowlExpected.WrongBranchRun | include/bowl/expected.hpp:73-76 | on an unconsumed holder any number of wrong-branch unpacks throw FalseState and leave the holder exactly as it was |
| BowlExpected.UnpackExactlyOnce | include/bowl/expected.hpp:66-96 | over any sequence of unpacks the payload is handed out exactly once if the holder is unconsumed and some call asks for its branch, never otherwise, and only ever the stored payload; on an unconsumed holder every call before the first matching one throws FalseState, that call hands out the stored payload and every later call throws MovedOut; `is_moved_` ends set exactly when the holder was consumed or some call matched; `ok_` and the union never change |
| BowlExpected.ConsumedAfterUnpack | include/bowl/expected.hpp:68-70 | after either successful unpack, every later unpack of either branch throws MovedOut |
| BowlExpected.MoveKeepsBehaviour | include/bowl/expected.hpp:24-59 | a move-constructed or move-assigned holder answers every sequence of unpacks exactly as its source would, whatever the destination held before |
| BowlExpected.MoveDoesNotConsumeSource | include/bowl/expected.hpp:24-39 | after a move from an unconsumed ok holder both the source and the new holder still hand out the value |
| BowlExpected.Expected.FromValue | include/bowl/expected.hpp:16-18 | the object starts as OkHolder of the value |
| BowlExpected.Expected.FromError | include/bowl/expected.hpp:12-14 | the object starts as ErrorHolder of the error |
| BowlExpected.Expected.FromUnexpected | include/bowl/expected.hpp:12-14 | unpacks the wrapper object and builds a fresh holder, or throws MovedOut, as FromWrapper says |
| BowlExpected.Expected.MoveFrom | include/bowl/expected.hpp:24-39 | the new object's fields are MoveConstruct of the source's, and the source is not modified |
| BowlExpected.Expected.Assign | include/bowl/expected.hpp:41-59 | the object's fields become MoveAssign of its old fields and the source's |
| BowlExpected.Expected.Ok | include/bowl/expected.hpp:61-64 | returns `ok_` and changes nothing |
| BowlExpected.Expected.UnpackOk | include/bowl/expected.hpp:66-80 | the imperative `unpack_ok()` returns and updates exactly as UnpackOkStep says and keeps the holder invariant |
| BowlExpected.Expected.UnpackError | include/bowl/expected.hpp:82-96 | the imperative `unpack_error()` returns and updates exactly as UnpackErrorStep says and keeps the holder invariant |
| BowlMacros.CheckAssignStep | include/bowl/macros.hpp:6-12 | on an unconsumed holder never throws: an error holder makes the enclosing function return a new unconsumed error holder with the same error, an ok holder binds the same value; a consumed holder throws MovedOut; the local holder always ends consumed with tag and payload unchanged |
| BowlMacros.ForwardsPayload | include/bowl/macros.hpp:8-12 | the caller of the enclosing function gets a holder that is not ok and unpacks to the same error, or a holder built from the bound value that unpacks to the same value |
| BowlMacros.FreshHolderNeverMisused | include/bowl/macros.hpp:8-12 | on a holder fresh from either constructor the expansion never throws and calls exactly the matching unpack once |
| BowlMacros.CheckAssign | include/bowl/macros.hpp:6-12 | the imperative expansion on a holder object returns, and leaves the holder, exactly as CheckAssignStep says; a returned holder is fresh and well formed |

## Left out

- include/bowl/error.hpp and src/error.cpp: `ErrnoError` reads the global `errno` and calls C `strerror`, `CustomError::display` returns its string; the error type E is an opaque type parameter and `throw_as_exception` is the `Raised(e)` outcome.
- include/bowl/exception.hpp: the exception classes only carry `what()` strings; each becomes an `Outcome` constructor without its text.
- `CHECK_ERROR` (include/bowl/maybe_error.hpp:11-18): it calls an `Error::contextualize` that does not exist and evaluates `op` twice, so it is not usable code.
- example/example.cpp: console I/O and floating-point `sqrt`.
- Object lifetime: raw union storage, explicit destructor calls and the moved-from state of a payload are not represented; after an unpack the model keeps the stored value as it was, and the construction and copy counts are not modelled.
- Constructors that unpack an `Unexpected` can throw, which a Dafny constructor cannot, so they are static factory methods (`FromUnexpected`) that return the new holder or the exception.
- Deleted default, copy and move operations of `Unexpected` and deleted copies of the holders: the classes simply have no such constructors; Dafny references can still be aliased, which the model does not rule out.
- BowlExpected.TearsDownOk: states that the destroyed member is the live one only for consistent holders; a holder move-constructed from a consumed holder (no member constructed) or move-assigned from one (`ok_` may name a member that is not live) is destroyed wrongly by the source, and that lifetime defect is not modelled.
- The move constructor's copy-assignment into unconstructed union storage (include/bowl/expected.hpp:31,34) is modelled as plainly storing the payload.
- The move assignment's transfer into the destination's union (include/bowl/expected.hpp:49,52) is modelled as replacing the destination's payload outright; when the two holders are on different branches the source assigns into the destination's inactive member and never destroys its live one, and that lifetime defect is not modelled.
- `unpack_ok()` and `unpack_error()` of Expected return the member `t_` / `e_` as an lvalue through a `T&&` / `E&&` return type (include/bowl/expected.hpp:79,95), which an rvalue reference cannot bind to; the model returns the stored payload, as `std::move(e_)` does in MaybeError (include/bowl/maybe_error.hpp:51) and Unexpected (include/bowl/unexpected.hpp:31).
- `CHECK_ASSIGN` inside a function returning `MaybeError<E>`: its `return bowl::Unexpected(...)` then goes through the MaybeError constructor (include/bowl/maybe_error.hpp:28-30); the model fixes the enclosing function's result type to `Expected<U, E>`, though `BowlMaybeError.FromWrapper` states what that other conversion does.
- `Expected::throw_if_error`, `UnpackErrorIfOkException`, `UnpackOkIfErrorException` and moves of `Unexpected` and `MaybeError` appear only in tests/test.cpp; the code has none of them, so they are not modelled.
