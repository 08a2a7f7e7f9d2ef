/** `CHECK_ASSIGN(var, stmt)`: propagate-or-bind over an Expected.

    The macro stores the evaluated Expected in a local holder, asks `ok()`,
    and then calls exactly one unpack: on the error branch it returns
    `Unexpected(unpack_error())` from the enclosing function (which converts
    it into that function's own Expected), and on the ok branch it binds
    `var` to `unpack_ok()`. Here the local holder is a parameter and the
    early return is the `ReturnEarly` result. The enclosing function's
    result type is taken to be `Expected<U, E>`; in a function returning
    `MaybeError<E>` the same `return` goes through
    `BowlMaybeError.FromWrapper` instead, which is not modelled here.
 */
module BowlMacros {
  import opened BowlSignals
  import W = BowlUnexpected
  import opened BowlExpected

  /** What the expansion does next: leave the enclosing function with a
      holder, or continue with the bound value. */
  datatype Bind<T, R> = ReturnEarly(result: R) | Bound(value: T)

  /** The expansion over the local holder `s`, returning what the enclosing
      function (whose result type is Expected<U, E>) goes on with, and the
      local holder's state afterwards. */
  function CheckAssignStep<T, U, E>(s: ResultState<T, E>): (r: (Outcome<Bind<T, ResultState<U, E>>, E>, ResultState<T, E>))
    requires WellFormed(s)
    ensures WellFormed(r.1) && r.1.isMoved
    ensures r.1.ok == s.ok && r.1.storage == s.storage
    ensures r.0.Value? <==> !s.isMoved
    ensures !r.0.Value? ==> r.0 == MovedOut
    ensures r.0.Value? && !s.ok ==> r.0.value == ReturnEarly(ErrorHolder(s.storage.payload.e))
    ensures r.0.Value? && s.ok ==> r.0.value == Bound(s.storage.payload.t)
  {
    if !s.ok then
      var (o, s1) := UnpackErrorStep(s);
      if o.Value? then
        var h := FromWrapper<U, E>(W.Wrap(o.value)).0;
        assert h.Value?;  // the wrapper was just built, so unpacking it cannot throw
        (Value(ReturnEarly(h.value)), s1)
      else (o.Rethrow(), s1)
    else
      var (o, s1) := UnpackOkStep(s);
      (if o.Value? then Value(Bound(o.value)) else o.Rethrow(), s1)
  }

  /** End to end, as the enclosing function's caller sees it: on the error
      path the returned holder is not ok and hands out the very same error;
      on the ok path `return var;` builds a holder that hands out the very
      same value. Either way the caller's holder starts unconsumed. */
  lemma ForwardsPayload<T, E>(s: ResultState<T, E>)
    requires WellFormed(s) && !s.isMoved
    ensures var o := CheckAssignStep<T, T, E>(s).0;
      o.Value? &&
      match o.value
      case ReturnEarly(h) =>
        !s.ok && !h.ok && UnpackErrorStep(h).0 == Value(s.storage.payload.e)
      case Bound(t) =>
        s.ok && UnpackOkStep(OkHolder<T, E>(t)).0 == Value(s.storage.payload.t)
  {
  }

  /** A holder fresh from either constructor never makes the expansion
      throw, and the expansion calls exactly one unpack on it: the one
      matching its branch. */
  lemma FreshHolderNeverMisused<T, U, E>(t: T, e: E)
    ensures CheckAssignStep<T, U, E>(OkHolder(t)).0 == Value(Bound(t))
    ensures CheckAssignStep<T, U, E>(ErrorHolder(e)).0 == Value(ReturnEarly(ErrorHolder(e)))
    ensures CheckAssignStep<T, U, E>(OkHolder(t)).1 == OkHolder(t).(isMoved := true)
    ensures CheckAssignStep<T, U, E>(ErrorHolder(e)).1 == ErrorHolder(e).(isMoved := true)
  {
    var ok, bad := OkHolder<T, E>(t), ErrorHolder<T, E>(e);
    assert ok.storage.payload.t == t;
    assert bad.storage.payload.e == e;
  }

  /** The holder the expansion may return, seen as its state. */
  ghost function Observe<T, U, E>(r: Outcome<Bind<T, Expected<U, E>>, E>): Outcome<Bind<T, ResultState<U, E>>, E>
    reads if r.Value? && r.value.ReturnEarly? then {r.value.result} else {}
  {
    match r
    case Value(ReturnEarly(h)) => Value(ReturnEarly(h.State()))
    case Value(Bound(t)) => Value(Bound(t))
    case MovedOut => MovedOut
    case FalseState => FalseState
    case RuntimeError => RuntimeError
    case Raised(e) => Raised(e)
  }

  /** The expansion on a local holder `res`. */
  method CheckAssign<T, U, E>(res: Expected<T, E>) returns (r: Outcome<Bind<T, Expected<U, E>>, E>)
    requires res.Valid()
    modifies res
    ensures res.Valid()
    ensures r.Value? && r.value.ReturnEarly? ==> fresh(r.value.result) && r.value.result.Valid()
    ensures (Observe(r), res.State()) == CheckAssignStep<T, U, E>(old(res.State()))
  {
    var isOk := res.Ok();
    if !isOk {
      var e := res.UnpackError();
      if !e.Value? {
        return e.Rethrow();
      }
      var w := new W.Unexpected(e.value);
      var h := Expected<U, E>.FromUnexpected(w);
      assert h.Value?;
      return Value(ReturnEarly(h.value));
    }
    var t := res.UnpackOk();
    if !t.Value? {
      return t.Rethrow();
    }
    return Value(Bound(t.value));
  }

  /** test.cpp `forwarding_error()` and `forwarding_value()`: the error
      "I'm an error!" is forwarded to the caller, and 42 is bound and
      returned. */
  method ForwardingScenario()
  {
    var w := new W.Unexpected("I'm an error!");
    var returned := Expected<int, string>.FromUnexpected(w);
    var holder := returned.value;
    var step := CheckAssign<int, int, string>(holder);
    assert step.Value? && step.value.ReturnEarly?;
    var res := step.value.result;
    var isOk := res.Ok();
    assert !isOk;
    var err := res.UnpackError();
    assert err == Value("I'm an error!");

    var fortyTwo := new Expected<int, string>.FromValue(42);
    var step2 := CheckAssign<int, int, string>(fortyTwo);
    assert step2 == Value(Bound(42));
    var res2 := new Expected<int, string>.FromValue(step2.value.value);
    var ok2 := res2.UnpackOk();
    assert ok2 == Value(42);
  }
}
