/** bowl::MaybeError<E>: either "ok, no payload" or "error, payload E".

    `ok_` is fixed by the constructor. The error branch can be consumed at
    most once, either by `unpack_error()` or by `throw_if_error()`; the flag
    `is_moved_` records that it was.
 */
module BowlMaybeError {
  import opened BowlSignals
  import W = BowlUnexpected

  /** The anonymous union `{ E e_; char placeholder_; }`. */
  datatype ErrorSlot<E> = Placeholder | Held(error: E)

  /** The fields `ok_`, `is_moved_` and the union. */
  datatype StatusState<E> = StatusState(ok: bool, isMoved: bool, slot: ErrorSlot<E>)

  /** Every state the constructors and operations can produce: the error is
      live exactly on the error branch, and an ok holder is never consumed. */
  ghost predicate WellFormed<E>(s: StatusState<E>)
  {
    (s.ok <==> s.slot.Placeholder?) && (s.ok ==> !s.isMoved)
  }

  /** `MaybeError()` */
  function Success<E>(): (s: StatusState<E>)
    ensures WellFormed(s) && s.ok && !s.isMoved
  {
    StatusState(true, false, Placeholder)
  }

  /** `MaybeError(E&& e)` */
  function Failure<E>(e: E): (s: StatusState<E>)
    ensures WellFormed(s) && !s.ok && !s.isMoved && s.slot == Held(e)
  {
    StatusState(false, false, Held(e))
  }

  /** `MaybeError(Unexpected<E>&& e)`: unpacks the wrapper, so it throws
      MovedOut when the wrapper was already consumed, and leaves the wrapper
      consumed in every case. */
  function FromWrapper<E>(w: W.WrapperState<E>): (r: (Outcome<StatusState<E>, E>, W.WrapperState<E>))
    ensures r.1.isMoved && r.1.value == w.value
    ensures r.0.Value? <==> !w.isMoved
    ensures r.0.Value? ==> r.0.value == Failure(w.value)
    ensures !r.0.Value? ==> r.0 == MovedOut
    ensures W.UnpackStep(r.1).0 == MovedOut
  {
    var (o, w1) := W.UnpackStep(w);
    if o.Value? then (Value(Failure(o.value)), w1) else (o.Rethrow(), w1)
  }

  /** `unpack_error()`: the moved check comes first, then the ok check. */
  function UnpackErrorStep<E>(s: StatusState<E>): (r: (Outcome<E, E>, StatusState<E>))
    requires WellFormed(s)
    ensures WellFormed(r.1) && r.1.ok == s.ok && r.1.slot == s.slot
    ensures r.0.Value? <==> !s.ok && !s.isMoved
    ensures r.0.Value? ==> s.slot == Held(r.0.value) && r.1.isMoved
    ensures s.isMoved ==> r.0 == MovedOut
    ensures s.ok ==> r.0 == RuntimeError
    ensures !r.0.Value? ==> r.1 == s
  {
    if s.isMoved then (MovedOut, s)
    else if s.ok then (RuntimeError, s)
    else (Value(s.slot.error), s.(isMoved := true))
  }

  /** `throw_if_error()`: a no-op on an ok holder; on an error holder it
      marks the holder consumed and raises the error's own exception, or
      throws MovedOut if the error was already consumed. */
  function ThrowIfErrorStep<E>(s: StatusState<E>): (r: (Outcome<(), E>, StatusState<E>))
    requires WellFormed(s)
    ensures WellFormed(r.1) && r.1.ok == s.ok && r.1.slot == s.slot
    ensures s.ok ==> r.0.Value? && r.1 == s
    ensures !s.ok && s.isMoved ==> r.0 == MovedOut && r.1 == s
    ensures !s.ok && !s.isMoved ==> r.1.isMoved && r.0.Raised? && s.slot == Held(r.0.error)
  {
    if !s.ok then
      if s.isMoved then (MovedOut, s) else (Raised(s.slot.error), s.(isMoved := true))
    else (Value(()), s)
  }

  /** `~MaybeError()`: the error it destroys, if any. */
  function Teardown<E>(s: StatusState<E>): (d: Option<E>)
    requires WellFormed(s)
    ensures d.Some? <==> !s.ok
    ensures d.Some? ==> s.slot == Held(d.value)
  {
    if !s.ok then Some(s.slot.error) else None
  }

  /** The two consuming calls. */
  datatype StatusCall = UnpackErrorCall | ThrowIfErrorCall

  /** One call, its outcome lifted to `Outcome<Option<E>, E>`: `unpack_error`
      returns `Some(e)`, a normal return of `throw_if_error` is `None`. */
  function StatusStep<E>(s: StatusState<E>, c: StatusCall): (r: (Outcome<Option<E>, E>, StatusState<E>))
    requires WellFormed(s)
    ensures WellFormed(r.1)
  {
    match c
    case UnpackErrorCall =>
      var (o, s1) := UnpackErrorStep(s);
      (if o.Value? then Value(Some(o.value)) else o.Rethrow(), s1)
    case ThrowIfErrorCall =>
      var (o, s1) := ThrowIfErrorStep(s);
      (if o.Value? then Value(None) else o.Rethrow(), s1)
  }

  /** Whether a call handed the error out: returned it or raised it. */
  predicate HandedOut<E>(o: Outcome<Option<E>, E>)
  {
    (o.Value? && o.value.Some?) || o.Raised?
  }

  /** The outcomes of a sequence of calls and the state they leave. */
  ghost function StatusRun<E>(s: StatusState<E>, cs: seq<StatusCall>): (r: (seq<Outcome<Option<E>, E>>, StatusState<E>))
    requires WellFormed(s)
    ensures WellFormed(r.1) && |r.0| == |cs|
    decreases |cs|
  {
    if cs == [] then ([], s)
    else
      var (o, s1) := StatusStep(s, cs[0]);
      var (os, s2) := StatusRun(s1, cs[1..]);
      ([o] + os, s2)
  }

  ghost function Handouts<E>(outs: seq<Outcome<Option<E>, E>>): nat
  {
    if outs == [] then 0 else (if HandedOut(outs[0]) then 1 else 0) + Handouts(outs[1..])
  }

  /** On an ok holder, however often they are called, `unpack_error()`
      always throws runtime_error and `throw_if_error()` always returns,
      and the state never changes. */
  lemma {:induction false} OkStatusRun<E>(s: StatusState<E>, cs: seq<StatusCall>)
    requires WellFormed(s) && s.ok
    ensures StatusRun(s, cs).1 == s
    ensures forall i :: 0 <= i < |cs| ==>
      StatusRun(s, cs).0[i] == if cs[i] == UnpackErrorCall then RuntimeError else Value(None)
    decreases |cs|
  {
    if cs != [] {
      OkStatusRun(s, cs[1..]);
    }
  }

  /** On a consumed error holder every call throws MovedOut and nothing changes. */
  lemma {:induction false} ConsumedStatusRun<E>(s: StatusState<E>, cs: seq<StatusCall>)
    requires WellFormed(s) && s.isMoved
    ensures StatusRun(s, cs).1 == s
    ensures forall i :: 0 <= i < |cs| ==> StatusRun(s, cs).0[i] == MovedOut
    ensures Handouts(StatusRun(s, cs).0) == 0
    decreases |cs|
  {
    if cs != [] {
      ConsumedStatusRun(s, cs[1..]);
    }
  }

  /** On an error holder the error is handed out at most once, by the first
      call (returned by `unpack_error()`, raised by `throw_if_error()`), and
      every later call throws MovedOut. `ok_` never changes and `is_moved_`
      only goes from false to true. */
  lemma {:induction false} ErrorHandedOutAtMostOnce<E>(s: StatusState<E>, cs: seq<StatusCall>)
    requires WellFormed(s) && !s.ok
    ensures Handouts(StatusRun(s, cs).0) == if cs != [] && !s.isMoved then 1 else 0
    ensures cs != [] && !s.isMoved ==>
      StatusRun(s, cs).0[0] == if cs[0] == UnpackErrorCall then Value(Some(s.slot.error)) else Raised(s.slot.error)
    ensures forall i :: 1 <= i < |cs| ==> StatusRun(s, cs).0[i] == MovedOut
    ensures StatusRun(s, cs).1 == s.(isMoved := s.isMoved || cs != [])
  {
    if cs == [] {
    } else if s.isMoved {
      ConsumedStatusRun(s, cs);
    } else {
      var (o, s1) := StatusStep(s, cs[0]);
      ConsumedStatusRun(s1, cs[1..]);
      var os := StatusRun(s1, cs[1..]).0;
      assert StatusRun(s, cs).0 == [o] + os;
      assert ([o] + os)[1..] == os;
    }
  }

  /** The C++ object. */
  class MaybeError<E> {
    var ok: bool
    var isMoved: bool
    var slot: ErrorSlot<E>

    function State(): StatusState<E>
      reads this
    {
      StatusState(ok, isMoved, slot)
    }

    ghost predicate Valid()
      reads this
    {
      WellFormed(State())
    }

    /** `MaybeError()` */
    constructor ()
      ensures Valid() && State() == Success()
    {
      ok := true;
      isMoved := false;
      slot := Placeholder;
    }

    /** `MaybeError(E&& e)` */
    constructor FromError(e: E)
      ensures Valid() && State() == Failure(e)
    {
      ok := false;
      isMoved := false;
      slot := Held(e);
    }

    /** `MaybeError(Unexpected<E>&& e)`: a constructor that can throw, so a
        factory returning the new holder or the exception. */
    static method FromUnexpected(w: W.Unexpected<E>) returns (r: Outcome<MaybeError<E>, E>)
      modifies w
      ensures w.State() == FromWrapper(old(w.State())).1
      ensures r.Value? <==> FromWrapper(old(w.State())).0.Value?
      ensures r.Value? ==> fresh(r.value) && r.value.Valid() && r.value.State() == FromWrapper(old(w.State())).0.value
      ensures !r.Value? ==> r == MovedOut
    {
      var e := w.Unpack();
      if e.Value? {
        var m := new MaybeError.FromError(e.value);
        r := Value(m);
      } else {
        r := e.Rethrow();
      }
    }

    /** `ok()` */
    method Ok() returns (b: bool)
      ensures b == ok
    {
      b := ok;
    }

    /** `check_is_moved()` */
    method CheckIsMoved() returns (r: Outcome<(), E>)
      ensures r.Value? <==> !isMoved
      ensures !r.Value? ==> r == MovedOut
    {
      if isMoved {
        return MovedOut;
      }
      return Value(());
    }

    /** `unpack_error()` */
    method UnpackError() returns (r: Outcome<E, E>)
      requires Valid()
      modifies this
      ensures Valid() && (r, State()) == UnpackErrorStep(old(State()))
    {
      var checked := CheckIsMoved();
      if !checked.Value? {
        return checked.Rethrow();
      }
      if ok {
        return RuntimeError;
      }
      isMoved := true;
      return Value(slot.error);
    }

    /** `throw_if_error()` */
    method ThrowIfError() returns (r: Outcome<(), E>)
      requires Valid()
      modifies this
      ensures Valid() && (r, State()) == ThrowIfErrorStep(old(State()))
    {
      if !ok {
        var checked := CheckIsMoved();
        if !checked.Value? {
          return checked;
        }
        isMoved := true;
        return Raised(slot.error);
      }
      return Value(());
    }
  }

  /** test.cpp "Can't call MaybeError::throw_if_error twice" and
      "MaybeError::ok() work". */
  method StatusScenario<E>(e: E)
  {
    var err := new MaybeError.FromError(e);
    var isOk := err.Ok();
    assert !isOk;
    var first := err.ThrowIfError();
    assert first == Raised(e);
    var second := err.ThrowIfError();
    assert second == MovedOut;
    var late := err.UnpackError();
    assert late == MovedOut;

    var fine := new MaybeError<E>();
    isOk := fine.Ok();
    assert isOk;
    var wrong := fine.UnpackError();
    assert wrong == RuntimeError;
    var quiet := fine.ThrowIfError();
    assert quiet.Value?;
  }
}
