/** bowl::Unexpected<E>: a single-use carrier of one error value.

    It is built from an error and hands that error out at most once through
    `unpack()`; every later `unpack()` throws MovedOutException. Default
    construction, copying and moving are deleted in the source, so the only
    way to obtain one is the constructor taking a value.
 */
module BowlUnexpected {
  import opened BowlSignals

  /** The two fields of an Unexpected: the error `e_` and the flag `is_moved_`. */
  datatype WrapperState<E> = WrapperState(value: E, isMoved: bool)

  /** The freshly constructed wrapper around `e`. */
  function Wrap<E>(e: E): (s: WrapperState<E>)
    ensures !s.isMoved && s.value == e
  {
    WrapperState(e, false)
  }

  /** `unpack()`: the first call hands the error out and marks the wrapper
      consumed; a call on a consumed wrapper throws and changes nothing. */
  function UnpackStep<E>(s: WrapperState<E>): (r: (Outcome<E, E>, WrapperState<E>))
    ensures r.1.isMoved && r.1.value == s.value
    ensures r.0.Value? <==> !s.isMoved
    ensures r.0.Value? ==> r.0.value == s.value
    ensures !r.0.Value? ==> r.0 == MovedOut && r.1 == s
  {
    if s.isMoved then (MovedOut, s) else (Value(s.value), s.(isMoved := true))
  }

  /** The outcomes of `n` consecutive `unpack()` calls and the state they leave. */
  ghost function UnpackRun<E>(s: WrapperState<E>, n: nat): (r: (seq<Outcome<E, E>>, WrapperState<E>))
    decreases n
  {
    if n == 0 then ([], s)
    else
      var (o, s1) := UnpackStep(s);
      var (os, s2) := UnpackRun(s1, n - 1);
      ([o] + os, s2)
  }

  /** The number of calls in `outs` that handed the error out. */
  ghost function Handouts<E>(outs: seq<Outcome<E, E>>): nat
  {
    if outs == [] then 0 else (if outs[0].Value? then 1 else 0) + Handouts(outs[1..])
  }

  /** On a consumed wrapper every `unpack()` throws MovedOut and nothing changes. */
  lemma {:induction false} ConsumedWrapperRun<E>(s: WrapperState<E>, n: nat)
    requires s.isMoved
    ensures |UnpackRun(s, n).0| == n && UnpackRun(s, n).1 == s
    ensures forall i :: 0 <= i < n ==> UnpackRun(s, n).0[i] == MovedOut
    ensures Handouts(UnpackRun(s, n).0) == 0
    decreases n
  {
    if n > 0 {
      ConsumedWrapperRun(s, n - 1);
    }
  }

  /** However often `unpack()` is called, the error is handed out at most
      once: by the first call, if the wrapper was unconsumed; every later call
      throws MovedOut, and the flag never returns to false. */
  lemma {:induction false} UnpackAtMostOnce<E>(s: WrapperState<E>, n: nat)
    ensures |UnpackRun(s, n).0| == n
    ensures Handouts(UnpackRun(s, n).0) == if n > 0 && !s.isMoved then 1 else 0
    ensures n > 0 && !s.isMoved ==> UnpackRun(s, n).0[0] == Value(s.value)
    ensures forall i :: 1 <= i < n ==> UnpackRun(s, n).0[i] == MovedOut
    ensures UnpackRun(s, n).1.value == s.value
    ensures UnpackRun(s, n).1.isMoved == (s.isMoved || n > 0)
  {
    if n > 0 {
      var (o, s1) := UnpackStep(s);
      ConsumedWrapperRun(s1, n - 1);
      var os := UnpackRun(s1, n - 1).0;
      assert UnpackRun(s, n).0 == [o] + os;
      assert ([o] + os)[1..] == os;
    }
  }

  /** The C++ object: the error `e_` and the flag `is_moved_`. */
  class Unexpected<E> {
    var value: E
    var isMoved: bool

    function State(): WrapperState<E>
      reads this
    {
      WrapperState(value, isMoved)
    }

    /** `Unexpected(E&& e)`: unconsumed, holding exactly `e`. */
    constructor (e: E)
      ensures State() == Wrap(e)
    {
      value := e;
      isMoved := false;
    }

    /** `unpack()` */
    method Unpack() returns (r: Outcome<E, E>)
      modifies this
      ensures (r, State()) == UnpackStep(old(State()))
    {
      if isMoved {
        return MovedOut;
      }
      isMoved := true;
      return Value(value);
    }
  }

  /** test.cpp "Can unpack Unexpected": the first unpack yields the wrapped
      error, the second throws MovedOut. */
  method UnpackTwiceScenario<E>(e: E)
  {
    var w := new Unexpected(e);
    var first := w.Unpack();
    assert first == Value(e);
    var second := w.Unpack();
    assert second == MovedOut;
  }
}
