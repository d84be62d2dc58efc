/**
 The scalar-delayed rendezvous (`SubscriberScalarDelayed`): a one-value slot
 that is both a subscriber and a subscription. A 4-valued state tag records
 whether downstream has requested (bit 1) and whether the value has been set
 (bit 0); whichever of `request` and `sdsSet` completes the pair emits
 `onNext(value)` followed by `onComplete()`, and `cancel` jumps straight to
 the final tag so that nothing is ever emitted afterwards.

 Each compare-and-set is one atomic step of a sequential model, so the
 source's `for (;;)` retry loops succeed on their first pass. What one call
 does is the function `Apply`; the class `SubscriberScalarDelayed` is
 specified against it, and the lemmas are about runs of `Apply`.
 */
module ScalarDelayed {
  import opened Signals

  const NoRequestNoValue := 0
  const NoRequestHasValue := 1
  const HasRequestNoValue := 2
  const HasRequestHasValue := 3

  predicate HasValue(tag: int) {
    tag == NoRequestHasValue || tag == HasRequestHasValue
  }

  predicate HasRequest(tag: int) {
    tag == HasRequestNoValue || tag == HasRequestHasValue
  }

  /** The state tag and the value slot (`None` is Java's null). */
  datatype Slot<T> = Slot(tag: int, value: Option<T>)

  /** The tag is one of the four states, and a value waiting for a request
      is present. */
  predicate Inv<T>(sl: Slot<T>) {
    NoRequestNoValue <= sl.tag <= HasRequestHasValue &&
    (sl.tag == NoRequestHasValue ==> sl.value.Some?)
  }

  /** A call made on the rendezvous: the subscription's `request` and
      `cancel`, `sdsSet`/`set`, and the subscriber signals. */
  datatype Call<T> =
    | RequestCall(n: int)
    | SetCall(v: T)
    | CancelCall
    | NextCall(t: T)
    | ErrorCall(e: Error)
    | CompleteCall
    | SubscribeCall

  /** The slot after a call and the events it sends downstream. */
  datatype Step<T> = Step(slot: Slot<T>, out: seq<Event<T>>)

  /** `request(n)`; `SubscriptionHelper.validate(n)` admits only n > 0. */
  function RequestStep<T>(sl: Slot<T>, n: int): Step<T>
    requires Inv(sl)
  {
    if n <= 0 || HasRequest(sl.tag) then Step(sl, [])
    else if sl.tag == NoRequestHasValue then
      Step(sl.(tag := HasRequestHasValue), [OnNext(sl.value.value), OnComplete])
    else Step(sl.(tag := HasRequestNoValue), [])
  }

  /** `sdsSet(v)`. */
  function SetStep<T>(sl: Slot<T>, v: T): Step<T> {
    if HasValue(sl.tag) then Step(sl, [])
    else if sl.tag == HasRequestNoValue then
      Step(sl.(tag := HasRequestHasValue), [OnNext(v), OnComplete])
    else Step(Slot(NoRequestHasValue, Some(v)), [])
  }

  function Apply<T>(sl: Slot<T>, call: Call<T>): Step<T>
    requires Inv(sl)
  {
    match call
    case RequestCall(n) => RequestStep(sl, n)
    case SetCall(v) => SetStep(sl, v)
    case CancelCall => Step(sl.(tag := HasRequestHasValue), [])
    case NextCall(t) => Step(sl.(value := Some(t)), [])
    case ErrorCall(e) => Step(sl, [OnError(e)])
    case CompleteCall => Step(sl, [OnComplete])
    case SubscribeCall => Step(sl, [])
  }

  lemma {:induction false} ApplyKeepsInv<T>(sl: Slot<T>, call: Call<T>)
    requires Inv(sl)
    ensures Inv(Apply(sl, call).slot)
  {
  }

  /** The calls in `calls`, one after the other. */
  function Run<T>(sl: Slot<T>, calls: seq<Call<T>>): (r: Step<T>)
    requires Inv(sl)
    ensures Inv(r.slot)
    decreases |calls|
  {
    if calls == [] then Step(sl, [])
    else
      var first := Apply(sl, calls[0]);
      ApplyKeepsInv(sl, calls[0]);
      var rest := Run(first.slot, calls[1..]);
      Step(rest.slot, first.out + rest.out)
  }

  /** The tag only gains bits: `b` has every bit `a` has. */
  predicate Below(a: int, b: int) {
    (HasValue(a) ==> HasValue(b)) && (HasRequest(a) ==> HasRequest(b))
  }

  /** Over any sequence of calls the tag moves only towards "has request"
      and "has value", never back. */
  lemma {:induction false} RunMonotone<T>(sl: Slot<T>, calls: seq<Call<T>>)
    requires Inv(sl)
    ensures Below(sl.tag, Run(sl, calls).slot.tag)
    decreases |calls|
  {
    if calls != [] {
      var first := Apply(sl, calls[0]);
      ApplyKeepsInv(sl, calls[0]);
      RunMonotone(first.slot, calls[1..]);
    }
  }

  /** The slot together with what it has emitted: at most one value, and
      only once the tag is final. */
  predicate Consistent<T>(sl: Slot<T>, log: seq<Event<T>>) {
    Inv(sl) && |Values(log)| <= 1 && (|Values(log)| == 1 ==> sl.tag == HasRequestHasValue)
  }

  lemma {:induction false} ApplyKeepsConsistent<T>(sl: Slot<T>, log: seq<Event<T>>, call: Call<T>)
    requires Consistent(sl, log)
    ensures Consistent(Apply(sl, call).slot, log + Apply(sl, call).out)
  {
    var step := Apply(sl, call);
    assert Values(log + step.out) == Values(log) + Values(step.out) by {
      ValuesAppend(log, step.out);
    }
    if |step.out| == 2 {
      var v := step.out[0].value;
      assert step.out == [OnNext(v), OnComplete];
      ValuesOfEmission(v);
    } else {
      ValuesOfSignal(step.out);
    }
  }

  /** Over any sequence of calls, in any order, at most one `onNext` is ever
      emitted, and only once the tag has become final. */
  lemma {:induction false} RunEmitsAtMostOnce<T>(sl: Slot<T>, log: seq<Event<T>>, calls: seq<Call<T>>)
    requires Consistent(sl, log)
    ensures Consistent(Run(sl, calls).slot, log + Run(sl, calls).out)
    decreases |calls|
  {
    if calls == [] {
      assert log + [] == log;
    } else {
      var first := Apply(sl, calls[0]);
      ApplyKeepsInv(sl, calls[0]);
      var rest := Run(first.slot, calls[1..]);
      ApplyKeepsConsistent(sl, log, calls[0]);
      RunEmitsAtMostOnce(first.slot, log + first.out, calls[1..]);
      assert Run(sl, calls) == Step(rest.slot, first.out + rest.out);
      Regroup(log, first.out, rest.out);
    }
  }

  /** The final tag (reached by `cancel` or by the emission) absorbs every
      call: it stays final and no value is emitted. This is what
      `isCancelled()` reports. */
  lemma {:induction false} FinalAbsorbs<T>(sl: Slot<T>, calls: seq<Call<T>>)
    requires Inv(sl) && sl.tag == HasRequestHasValue
    ensures Run(sl, calls).slot.tag == HasRequestHasValue
    ensures Values(Run(sl, calls).out) == []
    decreases |calls|
  {
    if calls != [] {
      var first := Apply(sl, calls[0]);
      ApplyKeepsInv(sl, calls[0]);
      var rest := Run(first.slot, calls[1..]);
      assert first.slot.tag == HasRequestHasValue && Values(first.out) == [] by {
        ValuesOfSignal(first.out);
      }
      FinalAbsorbs(first.slot, calls[1..]);
      assert Run(sl, calls) == Step(rest.slot, first.out + rest.out);
      ValuesAppend(first.out, rest.out);
    }
  }

  /** Short of the final tag, a request and a value still produce the one
      emission, carrying the stored value if there is one and the new value
      otherwise. */
  lemma {:induction false} NotFinalCanEmit<T>(sl: Slot<T>, v: T)
    requires Inv(sl) && sl.tag != HasRequestHasValue
    ensures Values(Run(sl, [RequestCall(1), SetCall(v)]).out)
         == [if HasValue(sl.tag) then sl.value.value else v]
  {
    var first := Apply(sl, RequestCall(1));
    var second := Apply(first.slot, SetCall(v));
    assert [RequestCall(1), SetCall(v)][1..] == [SetCall(v)];
    assert [SetCall(v)][1..] == [];
    assert Run(first.slot, [SetCall(v)]).out == second.out + [];
    assert Run(sl, [RequestCall(1), SetCall(v)]).out == first.out + (second.out + []);
    var w := if HasValue(sl.tag) then sl.value.value else v;
    assert first.out + (second.out + []) == [OnNext(w), OnComplete];
    ValuesOfEmission(w);
  }

  lemma {:induction false} ValuesOfEmission<T>(v: T)
    ensures Values([OnNext(v), OnComplete]) == [v]
  {
    Snoc([], OnNext(v));
    Snoc([OnNext(v)], OnComplete);
    assert [] + [OnNext(v)] == [OnNext(v)];
  }

  lemma {:induction false} ValuesOfSignal<T>(out: seq<Event<T>>)
    requires |out| <= 1 && (out != [] ==> !out[0].OnNext?)
    ensures Values(out) == []
  {
    if out != [] {
      Snoc([], out[0]);
      assert [] + [out[0]] == out;
    }
  }

  /** Whether `calls` holds a request `validate` admits. */
  predicate AnyRequest<T>(calls: seq<Call<T>>) {
    exists i :: 0 <= i < |calls| && calls[i].RequestCall? && calls[i].n > 0
  }

  /** The value of the first `sdsSet` in `calls`. */
  function FirstSet<T>(calls: seq<Call<T>>): Option<T> {
    if calls == [] then None
    else if calls[0].SetCall? then Some(calls[0].v)
    else FirstSet(calls[1..])
  }

  /** Calls racing on the rendezvous without cancellation and without an
      upstream `onNext` overwriting the slot. */
  predicate Racing<T>(calls: seq<Call<T>>) {
    forall i :: 0 <= i < |calls| ==> !calls[i].CancelCall? && !calls[i].NextCall?
  }

  /** A reference for what the rendezvous emits: nothing once final;
      otherwise the value (the stored one, or else the first one set) as
      soon as there is both a request and a value. */
  function Expected<T>(sl: Slot<T>, calls: seq<Call<T>>): seq<T> {
    if sl.tag == HasRequestHasValue then []
    else
      var v := if HasValue(sl.tag) then sl.value else FirstSet(calls);
      if (HasRequest(sl.tag) || AnyRequest(calls)) && v.Some? then [v.value] else []
  }

  lemma {:induction false} RunFirst<T>(sl: Slot<T>, calls: seq<Call<T>>)
    requires Inv(sl) && calls != []
    ensures Values(Run(sl, calls).out)
         == Values(Apply(sl, calls[0]).out) + Values(Run(Apply(sl, calls[0]).slot, calls[1..]).out)
  {
    ValuesAppend(Apply(sl, calls[0]).out, Run(Apply(sl, calls[0]).slot, calls[1..]).out);
  }

  lemma {:induction false} AnyRequestFirst<T>(calls: seq<Call<T>>)
    requires calls != []
    ensures AnyRequest(calls) <==> (calls[0].RequestCall? && calls[0].n > 0) || AnyRequest(calls[1..])
  {
    var rest := calls[1..];
    if AnyRequest(rest) {
      var i :| 0 <= i < |rest| && rest[i].RequestCall? && rest[i].n > 0;
      assert calls[i + 1] == rest[i];
    }
    if AnyRequest(calls) && !(calls[0].RequestCall? && calls[0].n > 0) {
      var i :| 0 <= i < |calls| && calls[i].RequestCall? && calls[i].n > 0;
      assert rest[i - 1] == calls[i];
    }
  }

  /** One call of a race moves `Expected` along: what it emits, followed by
      what is still expected of the rest. */
  lemma {:induction false} ExpectedFirst<T>(sl: Slot<T>, calls: seq<Call<T>>)
    requires Inv(sl) && sl.tag != HasRequestHasValue && calls != [] && Racing(calls)
    ensures Expected(sl, calls)
         == Values(Apply(sl, calls[0]).out) + Expected(Apply(sl, calls[0]).slot, calls[1..])
  {
    var c := calls[0];
    var first := Apply(sl, c);
    AnyRequestFirst(calls);
    assert !c.CancelCall? && !c.NextCall?;
    if first.slot.tag == HasRequestHasValue {
      if c.RequestCall? {
        ValuesOfEmission(sl.value.value);
      } else {
        ValuesOfEmission(c.v);
      }
    } else {
      ValuesOfSignal(first.out);
    }
  }

  /** Whatever the order in which requests, values and upstream terminal
      signals arrive, the rendezvous emits exactly what `Expected` says:
      one value once both a valid request and a value have arrived, and
      nothing otherwise. */
  lemma {:induction false} RendezvousMatchesExpected<T>(sl: Slot<T>, calls: seq<Call<T>>)
    requires Inv(sl) && Racing(calls)
    ensures Values(Run(sl, calls).out) == Expected(sl, calls)
    decreases |calls|
  {
    if calls == [] {
      assert Values<T>([]) == [];
    } else if sl.tag == HasRequestHasValue {
      FinalAbsorbs(sl, calls);
    } else {
      var first := Apply(sl, calls[0]);
      ApplyKeepsInv(sl, calls[0]);
      var rest := Run(first.slot, calls[1..]);
      assert Values(Run(sl, calls).out) == Values(first.out) + Values(rest.out) by {
        RunFirst(sl, calls);
      }
      assert Values(rest.out) == Expected(first.slot, calls[1..]) by {
        assert Racing(calls[1..]);
        RendezvousMatchesExpected(first.slot, calls[1..]);
      }
      ExpectedFirst(sl, calls);
    }
  }

  /** From the empty slot, exactly one `onNext` is emitted if and only if
      the calls hold both a valid request and a value, and it carries the
      first value set. */
  lemma {:induction false} RendezvousEmitsOnce<T>(calls: seq<Call<T>>)
    requires Racing(calls)
    ensures var emitted := Values(Run(Slot(NoRequestNoValue, None), calls).out);
            && (|emitted| == 1 <==> AnyRequest(calls) && FirstSet(calls).Some?)
            && (|emitted| == 1 ==> emitted[0] == FirstSet(calls).value)
            && |emitted| <= 1
  {
    RendezvousMatchesExpected(Slot(NoRequestNoValue, None), calls);
  }

  /** `SubscriberScalarDelayed`: the `state` tag, the `value` slot, and the
      signals sent to the downstream subscriber. */
  class SubscriberScalarDelayed<T> {
    var state: int
    var value: Option<T>
    var log: seq<Event<T>>

    ghost function Current(): Slot<T>
      reads this
    {
      Slot(state, value)
    }

    ghost predicate Valid()
      reads this
    {
      Consistent(Current(), log)
    }

    constructor ()
      ensures Valid() && state == NoRequestNoValue && value == None && log == []
    {
      state, value, log := NoRequestNoValue, None, [];
    }

    /** `sdsCasState`: one atomic compare-and-set of the tag. */
    method CasState(expected: int, updated: int) returns (ok: bool)
      modifies this`state
      ensures ok == (old(state) == expected)
      ensures state == if ok then updated else old(state)
    {
      ok := state == expected;
      if ok {
        state := updated;
      }
    }

    method Request(n: int)
      requires Valid()
      modifies this
      ensures Valid()
      ensures Current() == RequestStep(old(Current()), n).slot
      ensures log == old(log) + RequestStep(old(Current()), n).out
    {
      ApplyKeepsConsistent(Current(), log, RequestCall(n));
      if n > 0 {
        var s := state;
        if s == HasRequestNoValue || s == HasRequestHasValue {
          return;
        }
        if s == NoRequestHasValue {
          var won := CasState(NoRequestHasValue, HasRequestHasValue);
          if won {
            log := log + [Event.OnNext(value.value), Event.OnComplete];
          }
          return;
        }
        var won := CasState(NoRequestNoValue, HasRequestNoValue);
      }
    }

    method Cancel()
      requires Valid()
      modifies this
      ensures Valid()
      ensures Current() == Apply(old(Current()), CancelCall).slot && log == old(log)
    {
      state := HasRequestHasValue;
    }

    /** Upstream `onNext(t)` overwrites the slot and leaves the tag alone. */
    method OnNext(t: T)
      requires Valid()
      modifies this
      ensures Valid()
      ensures Current() == Apply(old(Current()), NextCall(t)).slot && log == old(log)
    {
      value := Some(t);
    }

    method OnError(e: Error)
      requires Valid()
      modifies this
      ensures Valid()
      ensures Current() == old(Current()) && log == old(log) + [Event.OnError(e)]
    {
      ApplyKeepsConsistent(Current(), log, ErrorCall(e));
      log := log + [Event.OnError(e)];
    }

    method OnComplete()
      requires Valid()
      modifies this
      ensures Valid()
      ensures Current() == old(Current()) && log == old(log) + [Event.OnComplete]
    {
      ApplyKeepsConsistent(Current(), log, CompleteCall);
      log := log + [Event.OnComplete];
    }

    method SdsSet(v: T)
      requires Valid()
      modifies this
      ensures Valid()
      ensures Current() == SetStep(old(Current()), v).slot
      ensures log == old(log) + SetStep(old(Current()), v).out
    {
      ApplyKeepsConsistent(Current(), log, SetCall(v));
      var s := state;
      if s == NoRequestHasValue || s == HasRequestHasValue {
        return;
      }
      if s == HasRequestNoValue {
        var won := CasState(HasRequestNoValue, HasRequestHasValue);
        if won {
          log := log + [Event.OnNext(v), Event.OnComplete];
        }
        return;
      }
      value := Some(v);
      var won := CasState(NoRequestNoValue, NoRequestHasValue);
    }

    /** `set(v)` is `sdsSet(v)`. */
    method Set(v: T)
      requires Valid()
      modifies this
      ensures Valid()
      ensures Current() == SetStep(old(Current()), v).slot
      ensures log == old(log) + SetStep(old(Current()), v).out
    {
      SdsSet(v);
    }

    /** `isCancelled()` reports the final tag, so it also holds after a
        normal emission, not only after `cancel`. */
    function IsCancelled(): (r: bool)
      requires Valid()
      reads this
      ensures r <==> HasRequest(state) && HasValue(state)
      ensures |Values(log)| == 1 ==> r
    {
      state == HasRequestHasValue
    }
  }

  /** A request followed by a value: the value is emitted, then completion,
      synchronously from the call that sets it. */
  method RequestThenSet<T>(x: T) returns (afterRequest: seq<Event<T>>, log: seq<Event<T>>)
    ensures afterRequest == []
    ensures log == [OnNext(x), OnComplete]
  {
    var r := new SubscriberScalarDelayed<T>();
    r.Request(1);
    afterRequest := r.log;
    r.Set(x);
    log := r.log;
  }

  /** A cancellation before any emission suppresses it for good. */
  method CancelThenRequestAndSet<T>(x: T) returns (log: seq<Event<T>>, cancelled: bool)
    ensures log == [] && cancelled
  {
    var r := new SubscriberScalarDelayed<T>();
    r.Cancel();
    r.Request(1);
    r.Set(x);
    log := r.log;
    cancelled := r.IsCancelled();
  }
}
