/** bowl::Expected<T, E>: holds either a success value T or an error E.

    `ok_` selects the branch; one flag `is_moved_` is shared by both branches.
    Each unpack checks the flag first and the branch second, so once either
    branch has been unpacked every later unpack throws MovedOut, while an
    unpack of the wrong branch throws FalseState and consumes nothing.
 */
module BowlExpected {
  import opened BowlSignals
  import W = BowlUnexpected

  /** A value of one of the two branches. */
  datatype Payload<T, E> = OkValue(t: T) | ErrValue(e: E)

  /** The anonymous union `{ T t_; E e_; }`: one live member, or none when
      the holder was move-constructed from a consumed holder. */
  datatype Storage<T, E> = Vacant | Live(payload: Payload<T, E>)

  /** The fields `ok_`, the union and `is_moved_`. */
  datatype ResultState<T, E> = ResultState(ok: bool, storage: Storage<T, E>, isMoved: bool)

  /** The member of the union named by `ok_` is the live one. */
  ghost predicate Consistent<T, E>(s: ResultState<T, E>)
  {
    s.storage.Live? && (s.storage.payload.OkValue? <==> s.ok)
  }

  /** Every state the constructors, unpacks and moves produce: an
      unconsumed holder holds the payload its tag names. */
  ghost predicate WellFormed<T, E>(s: ResultState<T, E>)
  {
    !s.isMoved ==> Consistent(s)
  }

  /** `Expected(T&& t)` */
  function OkHolder<T, E>(t: T): (s: ResultState<T, E>)
    ensures Consistent(s) && s.ok && !s.isMoved && s.storage == Live(OkValue(t))
  {
    ResultState(true, Live(OkValue(t)), false)
  }

  /** The holder the error-branch constructor builds around `e`. */
  function ErrorHolder<T, E>(e: E): (s: ResultState<T, E>)
    ensures Consistent(s) && !s.ok && !s.isMoved && s.storage == Live(ErrValue(e))
  {
    ResultState(false, Live(ErrValue(e)), false)
  }

  /** `Expected(Unexpected<E>&& e)`: unpacks the wrapper, so it throws
      MovedOut when the wrapper was already consumed, and leaves the wrapper
      consumed in every case. */
  function FromWrapper<T, E>(w: W.WrapperState<E>): (r: (Outcome<ResultState<T, E>, E>, W.WrapperState<E>))
    ensures r.1.isMoved && r.1.value == w.value
    ensures r.0.Value? <==> !w.isMoved
    ensures r.0.Value? ==> r.0.value == ErrorHolder(w.value)
    ensures !r.0.Value? ==> r.0 == MovedOut
    ensures W.UnpackStep(r.1).0 == MovedOut
  {
    var (o, w1) := W.UnpackStep(w);
    if o.Value? then (Value(ErrorHolder(o.value)), w1)
    else (o.Rethrow(), w1)
  }

  /** `unpack_ok()`: hands out the success value once; throws MovedOut on a
      consumed holder and FalseState on an error holder, changing nothing. */
  function UnpackOkStep<T, E>(s: ResultState<T, E>): (r: (Outcome<T, E>, ResultState<T, E>))
    requires WellFormed(s)
    ensures WellFormed(r.1) && r.1.ok == s.ok && r.1.storage == s.storage
    ensures r.0.Value? <==> s.ok && !s.isMoved
    ensures r.0.Value? ==> s.storage == Live(OkValue(r.0.value)) && r.1.isMoved
    ensures s.isMoved ==> r.0 == MovedOut
    ensures !s.isMoved && !s.ok ==> r.0 == FalseState
    ensures !r.0.Value? ==> r.1 == s
  {
    if s.isMoved then (MovedOut, s)
    else if !s.ok then (FalseState, s)
    else (Value(s.storage.payload.t), s.(isMoved := true))
  }

  /** `unpack_error()`: the mirror image of `unpack_ok()`. */
  function UnpackErrorStep<T, E>(s: ResultState<T, E>): (r: (Outcome<E, E>, ResultState<T, E>))
    requires WellFormed(s)
    ensures WellFormed(r.1) && r.1.ok == s.ok && r.1.storage == s.storage
    ensures r.0.Value? <==> !s.ok && !s.isMoved
    ensures r.0.Value? ==> s.storage == Live(ErrValue(r.0.value)) && r.1.isMoved
    ensures s.isMoved ==> r.0 == MovedOut
    ensures !s.isMoved && s.ok ==> r.0 == FalseState
    ensures !r.0.Value? ==> r.1 == s
  {
    if s.isMoved then (MovedOut, s)
    else if s.ok then (FalseState, s)
    else (Value(s.storage.payload.e), s.(isMoved := true))
  }

  /** `Expected(Expected&& other)`: the new holder takes `other`'s tag and
      flag, and its payload only when `other` is unconsumed. */
  function MoveConstruct<T, E>(other: ResultState<T, E>): (r: ResultState<T, E>)
    ensures WellFormed(other) ==> WellFormed(r)
    ensures !other.isMoved ==> r == other
    ensures other.isMoved ==> r.isMoved && r.ok == other.ok && r.storage == Vacant
  {
    ResultState(other.ok, if !other.isMoved then other.storage else Vacant, other.isMoved)
  }

  /** `operator=(Expected&& other)`: the destination takes `other`'s tag and
      flag, and its payload only when `other` is unconsumed; otherwise the
      destination keeps its old union. */
  function MoveAssign<T, E>(dst: ResultState<T, E>, other: ResultState<T, E>): (r: ResultState<T, E>)
    ensures WellFormed(other) ==> WellFormed(r)
    ensures !other.isMoved ==> r == other
    ensures other.isMoved ==> r.isMoved && r.ok == other.ok && r.storage == dst.storage
  {
    ResultState(other.ok, if !other.isMoved then other.storage else dst.storage, other.isMoved)
  }

  /** `~Expected()`: whether it destroys the T member (else the E member). */
  function TearsDownOk<T, E>(s: ResultState<T, E>): (okMember: bool)
    ensures Consistent(s) ==> (okMember <==> s.storage.payload.OkValue?)
  {
    s.ok
  }

  /** The two consuming calls. */
  datatype ResultCall = UnpackOkCall | UnpackErrorCall

  /** Whether a call asks for the branch the holder is tagged with. */
  predicate Matches(c: ResultCall, ok: bool)
  {
    c.UnpackOkCall? == ok
  }

  /** One call, its value lifted to the branch it came from. */
  function ResultStep<T, E>(s: ResultState<T, E>, c: ResultCall): (r: (Outcome<Payload<T, E>, E>, ResultState<T, E>))
    requires WellFormed(s)
    ensures WellFormed(r.1)
  {
    match c
    case UnpackOkCall =>
      var (o, s1) := UnpackOkStep(s);
      (if o.Value? then Value(OkValue(o.value)) else o.Rethrow(), s1)
    case UnpackErrorCall =>
      var (o, s1) := UnpackErrorStep(s);
      (if o.Value? then Value(ErrValue(o.value)) else o.Rethrow(), s1)
  }

  /** The outcomes of a sequence of calls and the state they leave. */
  ghost function ResultRun<T, E>(s: ResultState<T, E>, cs: seq<ResultCall>): (r: (seq<Outcome<Payload<T, E>, E>>, ResultState<T, E>))
    requires WellFormed(s)
    ensures WellFormed(r.1) && |r.0| == |cs|
    decreases |cs|
  {
    if cs == [] then ([], s)
    else
      var (o, s1) := ResultStep(s, cs[0]);
      var (os, s2) := ResultRun(s1, cs[1..]);
      ([o] + os, s2)
  }

  /** The number of calls that handed a payload out. */
  ghost function Handouts<T, E>(outs: seq<Outcome<Payload<T, E>, E>>): nat
  {
    if outs == [] then 0 else (if outs[0].Value? then 1 else 0) + Handouts(outs[1..])
  }

  /** On a consumed holder every unpack throws MovedOut and nothing changes. */
  lemma {:induction false} ConsumedRun<T, E>(s: ResultState<T, E>, cs: seq<ResultCall>)
    requires WellFormed(s) && s.isMoved
    ensures ResultRun(s, cs).1 == s
    ensures forall i :: 0 <= i < |cs| ==> ResultRun(s, cs).0[i] == MovedOut
    ensures Handouts(ResultRun(s, cs).0) == 0
    decreases |cs|
  {
    if cs != [] {
      ConsumedRun(s, cs[1..]);
    }
  }

  /** Unpacks of the wrong branch all throw FalseState and consume nothing. */
  lemma {:induction false} WrongBranchRun<T, E>(s: ResultState<T, E>, cs: seq<ResultCall>)
    requires WellFormed(s) && !s.isMoved
    requires forall i :: 0 <= i < |cs| ==> !Matches(cs[i], s.ok)
    ensures ResultRun(s, cs).1 == s
    ensures forall i :: 0 <= i < |cs| ==> ResultRun(s, cs).0[i] == FalseState
    ensures Handouts(ResultRun(s, cs).0) == 0
    decreases |cs|
  {
    if cs != [] {
      WrongBranchRun(s, cs[1..]);
    }
  }

  /** The index of the first call in `cs` that asks for branch `ok`, or
      `|cs|` when there is none. */
  function FirstMatch(cs: seq<ResultCall>, ok: bool): (k: nat)
    ensures k <= |cs|
    ensures forall j :: 0 <= j < k ==> !Matches(cs[j], ok)
    ensures k < |cs| ==> Matches(cs[k], ok)
    decreases |cs|
  {
    if cs == [] then 0
    else if Matches(cs[0], ok) then 0
    else 1 + FirstMatch(cs[1..], ok)
  }

  /** Whatever unpacks are called, in whatever order: the payload is handed
      out exactly once if the holder was unconsumed and some call asks for
      its branch, and never otherwise. On an unconsumed holder every call
      before the first matching one throws FalseState, that call hands out
      the stored payload, and every call after it throws MovedOut; the flag
      ends set exactly when the holder was consumed or some call matched,
      and `ok_` and the union never change. */
  lemma {:induction false} UnpackExactlyOnce<T, E>(s: ResultState<T, E>, cs: seq<ResultCall>)
    requires WellFormed(s)
    ensures Handouts(ResultRun(s, cs).0) ==
      if !s.isMoved && exists i :: 0 <= i < |cs| && Matches(cs[i], s.ok) then 1 else 0
    ensures forall i :: 0 <= i < |cs| && ResultRun(s, cs).0[i].Value? ==>
      s.storage == Live(ResultRun(s, cs).0[i].value)
    ensures !s.isMoved ==> forall i :: 0 <= i < FirstMatch(cs, s.ok) ==> ResultRun(s, cs).0[i] == FalseState
    ensures !s.isMoved && FirstMatch(cs, s.ok) < |cs| ==>
      ResultRun(s, cs).0[FirstMatch(cs, s.ok)] == Value(s.storage.payload)
    ensures forall i :: FirstMatch(cs, s.ok) < i < |cs| ==> ResultRun(s, cs).0[i] == MovedOut
    ensures ResultRun(s, cs).1.isMoved == (s.isMoved || FirstMatch(cs, s.ok) < |cs|)
    ensures ResultRun(s, cs).1.ok == s.ok && ResultRun(s, cs).1.storage == s.storage
    decreases |cs|
  {
    if cs == [] {
    } else if s.isMoved {
      ConsumedRun(s, cs);
    } else {
      var (o, s1) := ResultStep(s, cs[0]);
      var os := ResultRun(s1, cs[1..]).0;
      assert ResultRun(s, cs).0 == [o] + os;
      assert ([o] + os)[1..] == os;
      if Matches(cs[0], s.ok) {
        ConsumedRun(s1, cs[1..]);
        assert ResultRun(s, cs).1 == ResultRun(s1, cs[1..]).1;
        forall i | 0 < i < |cs|
          ensures ResultRun(s, cs).0[i] == MovedOut
        {
          assert ([o] + os)[i] == os[i - 1];
        }
      } else {
        assert s1 == s;
        UnpackExactlyOnce(s1, cs[1..]);
        var k := FirstMatch(cs[1..], s.ok);
        assert FirstMatch(cs, s.ok) == k + 1;
        forall i | 1 <= i < |cs|
          ensures ResultRun(s, cs).0[i] == os[i - 1]
        {
          assert ([o] + os)[i] == os[i - 1];
        }
        assert (exists i :: 0 <= i < |cs| && Matches(cs[i], s.ok))
          <==> (exists i :: 0 <= i < |cs[1..]| && Matches(cs[1..][i], s.ok)) by {
          if i :| 0 <= i < |cs| && Matches(cs[i], s.ok) {
            assert i > 0 && cs[1..][i - 1] == cs[i];
          }
          if i :| 0 <= i < |cs[1..]| && Matches(cs[1..][i], s.ok) {
            assert cs[i + 1] == cs[1..][i];
          }
        }
      }
    }
  }

  /** After either successful unpack, both unpacks throw MovedOut, because
      the moved check comes before the branch check. */
  lemma {:induction false} ConsumedAfterUnpack<T, E>(s: ResultState<T, E>, c: ResultCall, cs: seq<ResultCall>)
    requires WellFormed(s) && ResultStep(s, c).0.Value?
    ensures ResultStep(s, c).1.isMoved
    ensures forall i :: 0 <= i < |cs| ==> ResultRun(ResultStep(s, c).1, cs).0[i] == MovedOut
  {
    ConsumedRun(ResultStep(s, c).1, cs);
  }

  /** A moved-to holder, whether move-constructed or move-assigned, answers
      every sequence of unpacks exactly as its source would have; the
      destination's previous contents play no part. */
  lemma {:induction false} MoveKeepsBehaviour<T, E>(dst: ResultState<T, E>, src: ResultState<T, E>, cs: seq<ResultCall>)
    requires WellFormed(src)
    ensures ResultRun(MoveConstruct(src), cs).0 == ResultRun(src, cs).0
    ensures ResultRun(MoveAssign(dst, src), cs).0 == ResultRun(src, cs).0
  {
    if src.isMoved {
      ConsumedRun(src, cs);
      ConsumedRun(MoveConstruct(src), cs);
      ConsumedRun(MoveAssign(dst, src), cs);
      assert ResultRun(MoveConstruct(src), cs).0 == ResultRun(src, cs).0;
      assert ResultRun(MoveAssign(dst, src), cs).0 == ResultRun(src, cs).0;
    }
  }

  /** A move leaves its source as it was: an unconsumed ok holder that has
      been moved from still hands out its value, and so does the holder it
      was moved to. */
  lemma MoveDoesNotConsumeSource<T, E>(src: ResultState<T, E>)
    requires Consistent(src) && src.ok && !src.isMoved
    ensures UnpackOkStep(src).0 == Value(src.storage.payload.t)
    ensures UnpackOkStep(MoveConstruct(src)).0 == Value(src.storage.payload.t)
  {
  }

  /** The C++ object. */
  class Expected<T, E> {
    var ok: bool
    var storage: Storage<T, E>
    var isMoved: bool

    function State(): ResultState<T, E>
      reads this
    {
      ResultState(ok, storage, isMoved)
    }

    ghost predicate Valid()
      reads this
    {
      WellFormed(State())
    }

    /** `Expected(T&& t)` */
    constructor FromValue(t: T)
      ensures Valid() && State() == OkHolder(t)
    {
      ok := true;
      storage := Live(OkValue(t));
      isMoved := false;
    }

    /** The error-branch constructor body, once the wrapper has been unpacked. */
    constructor FromError(e: E)
      ensures Valid() && State() == ErrorHolder(e)
    {
      ok := false;
      storage := Live(ErrValue(e));
      isMoved := false;
    }

    /** `Expected(Unexpected<E>&& e)`: a constructor that can throw, so a
        factory returning the new holder or the exception. */
    static method FromUnexpected(w: W.Unexpected<E>) returns (r: Outcome<Expected<T, E>, E>)
      modifies w
      ensures w.State() == FromWrapper<T, E>(old(w.State())).1
      ensures r.Value? <==> FromWrapper<T, E>(old(w.State())).0.Value?
      ensures r.Value? ==> fresh(r.value) && r.value.Valid()
      ensures r.Value? ==> r.value.State() == FromWrapper<T, E>(old(w.State())).0.value
      ensures !r.Value? ==> r == MovedOut
    {
      var e := w.Unpack();
      if e.Value? {
        var x := new Expected.FromError(e.value);
        r := Value(x);
      } else {
        r := e.Rethrow();
      }
    }

    /** `Expected(Expected&& other)`; `other` is left as it was. */
    constructor MoveFrom(other: Expected<T, E>)
      requires other.Valid()
      ensures Valid() && State() == MoveConstruct(other.State())
    {
      isMoved := other.isMoved;
      if !other.isMoved {
        storage := other.storage;
      } else {
        storage := Vacant;
      }
      ok := other.ok;
    }

    /** `operator=(Expected&& other)`; `other`'s fields are not changed; the
        moved-from state of its payload is not modelled. */
    method Assign(other: Expected<T, E>)
      requires Valid() && other.Valid()
      modifies this
      ensures Valid() && State() == MoveAssign(old(State()), old(other.State()))
    {
      isMoved := other.isMoved;
      if !other.isMoved {
        storage := other.storage;
      }
      ok := other.ok;
    }

    /** `ok()` */
    method Ok() returns (b: bool)
      ensures b == ok
    {
      b := ok;
    }

    /** `unpack_ok()` */
    method UnpackOk() returns (r: Outcome<T, E>)
      requires Valid()
      modifies this
      ensures Valid() && (r, State()) == UnpackOkStep(old(State()))
    {
      if isMoved {
        return MovedOut;
      }
      if !ok {
        return FalseState;
      }
      isMoved := true;
      return Value(storage.payload.t);
    }

    /** `unpack_error()` */
    method UnpackError() returns (r: Outcome<E, E>)
      requires Valid()
      modifies this
      ensures Valid() && (r, State()) == UnpackErrorStep(old(State()))
    {
      if isMoved {
        return MovedOut;
      }
      if ok {
        return FalseState;
      }
      isMoved := true;
      return Value(storage.payload.e);
    }
  }

  /** test.cpp "Can create error Expected": the wrong-branch unpack throws
      FalseState without consuming, the matching unpack then succeeds, and
      after it both unpacks throw MovedOut. */
  method ErrorHolderScenario<T, E>(e: E)
  {
    var w := new W.Unexpected(e);
    var made := Expected<T, E>.FromUnexpected(w);
    assert made.Value?;
    var x := made.value;
    var isOk := x.Ok();
    assert !isOk;
    var wrong := x.UnpackOk();
    assert wrong == FalseState;
    var err := x.UnpackError();
    assert err == Value(e);
    var again := x.UnpackError();
    assert again == MovedOut;
    var other := x.UnpackOk();
    assert other == MovedOut;
  }

  /** A move leaves its source as it was: after `b(std::move(a))` on an
      unconsumed ok holder `a`, both `a` and `b` hand out the value. */
  method MoveScenario<T, E>(t: T)
  {
    var a := new Expected<T, E>.FromValue(t);
    var b := new Expected<T, E>.MoveFrom(a);
    var fromSource := a.UnpackOk();
    assert fromSource == Value(t);
    var fromTarget := b.UnpackOk();
    assert fromTarget == Value(t);
  }
}
