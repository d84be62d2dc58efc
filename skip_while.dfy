/**
 The skip-while operator (`PublisherSkipWhile`): it drops upstream values
 while a predicate holds of them, asking upstream for one replacement value
 per dropped value, and forwards every value from the first one the predicate
 rejects onwards without consulting the predicate again. A failing predicate
 cancels upstream and terminates downstream with the failure; signals after
 termination go to a diagnostic sink.

 The subscriber's fields (`s != null`, `done`, `skipped`) are the class
 `SkipWhileSubscriber`; what one call does to them is the function `Apply`,
 and the lemmas below are about runs of `Apply`.
 */
module SkipWhile {
  import opened Signals

  /** The outcome of `predicate.test(t)`: true (skip the value), false
      (keep it), or a non-fatal exception. */
  datatype Verdict = Skip | Keep | Throws(error: Error)

  /** The subscriber's fields: whether an upstream subscription is set, and
      the `done` and `skipped` flags. */
  datatype State = State(subscribed: bool, done: bool, skipped: bool)

  /** A call made on the subscriber, by upstream or by downstream. */
  datatype Input<T> =
    | SubscribeIn
    | NextIn(value: T)
    | ErrorIn(error: Error)
    | CompleteIn
    | RequestIn(n: int)
    | CancelIn

  /** The fields after a call and the events it causes, in order. */
  datatype Step<T> = Step(state: State, out: seq<Event<T>>)

  const Fresh := State(false, false, false)

  function OnNextStep<T>(test: T -> Verdict, st: State, t: T): Step<T> {
    if st.done then Step(st, [NextDropped(t)])
    else if st.skipped then Step(st, [OnNext(t)])
    else match test(t)
      case Throws(e) => Step(st.(done := true), [Cancel, OnError(e)])
      case Skip => Step(st, [Request(1)])
      case Keep => Step(st.(skipped := true), [OnNext(t)])
  }

  function OnErrorStep<T>(st: State, e: Error): Step<T> {
    if st.done then Step(st, [ErrorDropped(e)]) else Step(st.(done := true), [OnError(e)])
  }

  function OnCompleteStep<T>(st: State): Step<T> {
    if st.done then Step(st, []) else Step(st.(done := true), [OnComplete])
  }

  /** `SubscriptionHelper.validate(this.s, s)` admits only the first
      subscription; a later one leaves the fields alone. */
  function OnSubscribeStep<T>(st: State): Step<T> {
    if st.subscribed then Step(st, []) else Step(st.(subscribed := true), [OnSubscribe])
  }

  function Apply<T>(test: T -> Verdict, st: State, input: Input<T>): Step<T> {
    match input
    case SubscribeIn => OnSubscribeStep(st)
    case NextIn(t) => OnNextStep(test, st, t)
    case ErrorIn(e) => OnErrorStep(st, e)
    case CompleteIn => OnCompleteStep(st)
    case RequestIn(n) => Step(st, [Request(n)])
    case CancelIn => Step(st, [Cancel])
  }

  /** The calls in `inputs`, one after the other. */
  function Run<T>(test: T -> Verdict, st: State, inputs: seq<Input<T>>): Step<T>
    decreases |inputs|
  {
    if inputs == [] then Step(st, [])
    else
      var first := Apply(test, st, inputs[0]);
      var rest := Run(test, first.state, inputs[1..]);
      Step(rest.state, first.out + rest.out)
  }

  /** `onNext(t)` for each of `ts`, in order. */
  function Arrivals<T>(ts: seq<T>): (r: seq<Input<T>>)
    ensures |r| == |ts|
  {
    if ts == [] then [] else [NextIn(ts[0])] + Arrivals(ts[1..])
  }

  /** The input with its longest prefix of predicate-true values removed. */
  function DropWhile<T>(test: T -> Verdict, ts: seq<T>): (r: seq<T>)
    ensures |r| <= |ts|
  {
    if ts == [] then []
    else if test(ts[0]) == Skip then DropWhile(test, ts[1..])
    else ts
  }

  /** `k` requests for one value each. */
  function Replenish<T>(k: nat): (r: seq<Event<T>>)
    ensures |r| == k
  {
    if k == 0 then [] else [Request(1)] + Replenish(k - 1)
  }

  function Dropped<T>(ts: seq<T>): (r: seq<Event<T>>)
    ensures |r| == |ts|
  {
    if ts == [] then [] else [NextDropped(ts[0])] + Dropped(ts[1..])
  }

  /** No value and no second terminal signal reaches downstream after a
      terminal signal. */
  predicate QuietAfterTerminal<T>(log: seq<Event<T>>) {
    log == [] ||
    (QuietAfterTerminal(log[..|log| - 1]) &&
     (Terminals(log[..|log| - 1]) > 0 ==> !(log[|log| - 1].OnNext? || IsTerminal(log[|log| - 1]))))
  }

  /** The invariant the subscriber keeps: `done` is set exactly when one
      terminal signal has gone downstream, and nothing follows it there. */
  predicate WellFormed<T>(st: State, log: seq<Event<T>>) {
    Terminals(log) <= 1 && (st.done <==> Terminals(log) == 1) && QuietAfterTerminal(log)
  }

  lemma {:induction false} QuietSnoc<T>(log: seq<Event<T>>, e: Event<T>)
    ensures QuietAfterTerminal(log + [e])
        <==> QuietAfterTerminal(log) && (Terminals(log) > 0 ==> !(e.OnNext? || IsTerminal(e)))
  {
    assert (log + [e])[..|log|] == log;
  }

  /** Appending one event keeps the invariant when the new fields agree with
      it. */
  lemma {:induction false} WellFormedSnoc<T>(st: State, log: seq<Event<T>>, e: Event<T>, st': State)
    requires WellFormed(st, log)
    requires st'.done == (st.done || IsTerminal(e))
    requires st.done ==> !(e.OnNext? || IsTerminal(e))
    ensures WellFormed(st', log + [e])
  {
    Snoc(log, e);
    QuietSnoc(log, e);
  }

  /** Every call keeps the invariant: at most one terminal signal ever
      reaches downstream, and only the first. */
  lemma {:induction false} ApplyKeepsWellFormed<T>(test: T -> Verdict, st: State, log: seq<Event<T>>, input: Input<T>)
    requires WellFormed(st, log)
    ensures WellFormed(Apply(test, st, input).state, log + Apply(test, st, input).out)
  {
    var step := Apply(test, st, input);
    if input.NextIn? && !st.done && !st.skipped && test(input.value).Throws? {
      var e := test(input.value).error;
      assert step.out == [Cancel, OnError(e)];
      WellFormedSnoc(st, log, Cancel, st);
      WellFormedSnoc(st, log + [Cancel], OnError(e), step.state);
      assert log + step.out == log + [Cancel] + [OnError(e)];
    } else if step.out == [] {
      assert log + step.out == log;
    } else {
      assert step.out == [step.out[0]];
      WellFormedSnoc(st, log, step.out[0], step.state);
    }
  }

  /** Over any sequence of calls, at most one terminal signal reaches
      downstream, `done` records exactly whether it has, and no value or
      terminal signal follows it. */
  lemma {:induction false} RunKeepsWellFormed<T>(test: T -> Verdict, st: State, log: seq<Event<T>>, inputs: seq<Input<T>>)
    requires WellFormed(st, log)
    ensures WellFormed(Run(test, st, inputs).state, log + Run(test, st, inputs).out)
    decreases |inputs|
  {
    if inputs != [] {
      var first := Apply(test, st, inputs[0]);
      var rest := Run(test, first.state, inputs[1..]);
      ApplyKeepsWellFormed(test, st, log, inputs[0]);
      RunKeepsWellFormed(test, first.state, log + first.out, inputs[1..]);
      assert Run(test, st, inputs) == Step(rest.state, first.out + rest.out);
      Regroup(log, first.out, rest.out);
    } else {
      assert log + [] == log;
    }
  }

  /** One value, then the rest. */
  lemma {:induction false} RunArrivals<T>(test: T -> Verdict, st: State, ts: seq<T>)
    requires ts != []
    ensures Run(test, st, Arrivals(ts))
         == var first := OnNextStep(test, st, ts[0]);
            var rest := Run(test, first.state, Arrivals(ts[1..]));
            Step(rest.state, first.out + rest.out)
  {
    assert Arrivals(ts)[1..] == Arrivals(ts[1..]);
  }

  /** Once `skipped` is set every value is forwarded unchanged, whatever the
      predicate: it is not consulted again. */
  lemma {:induction false} SkippedForwardsAll<T>(test: T -> Verdict, st: State, ts: seq<T>)
    requires st.skipped && !st.done
    ensures Run(test, st, Arrivals(ts)) == Step(st, Nexts(ts))
    decreases |ts|
  {
    if ts != [] {
      assert Run(test, st, Arrivals(ts)) == Step(st, [OnNext(ts[0])] + Nexts(ts[1..])) by {
        RunArrivals(test, st, ts);
        SkippedForwardsAll(test, st, ts[1..]);
      }
      NextsFirst(ts);
    }
  }

  /** After termination every value goes to the dropped-value sink and the
      fields stay as they are. */
  lemma {:induction false} DoneDropsAll<T>(test: T -> Verdict, st: State, ts: seq<T>)
    requires st.done
    ensures Run(test, st, Arrivals(ts)) == Step(st, Dropped(ts))
    decreases |ts|
  {
    if ts != [] {
      RunArrivals(test, st, ts);
      DoneDropsAll(test, st, ts[1..]);
    }
  }

  /** `DropWhile` removes exactly the longest prefix the predicate accepts:
      for the boundary `k` of that prefix it returns `ts[k..]`. */
  lemma {:induction false} DropWhileIsLongestSkippedPrefix<T>(test: T -> Verdict, ts: seq<T>, k: nat)
    requires k <= |ts|
    requires forall i :: 0 <= i < k ==> test(ts[i]) == Skip
    requires k < |ts| ==> test(ts[k]) != Skip
    ensures DropWhile(test, ts) == ts[k..]
    decreases k
  {
    if k > 0 {
      assert test(ts[0]) == Skip;
      DropWhileIsLongestSkippedPrefix(test, ts[1..], k - 1);
      assert ts[1..][k - 1..] == ts[k..];
    }
  }

  /** What a run of values does when the predicate never throws: the values
      forwarded are the input with its longest predicate-true prefix
      removed, each dropped value causes exactly one `request(1)` upstream,
      ahead of anything forwarded, and nothing else is signalled. */
  ghost predicate ForwardsSuffix<T>(test: T -> Verdict, st: State, ts: seq<T>) {
    var kept := DropWhile(test, ts);
    var r := Run(test, st, Arrivals(ts));
    && r.out == Replenish(|ts| - |kept|) + Nexts(kept)
    && r.state == st.(skipped := kept != [])
  }

  lemma {:induction false} SkipFirst<T>(test: T -> Verdict, st: State, ts: seq<T>)
    requires !st.done && !st.skipped
    requires ts != [] && test(ts[0]) == Skip
    requires ForwardsSuffix(test, st, ts[1..])
    ensures ForwardsSuffix(test, st, ts)
  {
    var kept := DropWhile(test, ts);
    var rest := Run(test, st, Arrivals(ts[1..]));
    var n := |ts| - |kept|;
    var requests := Replenish<T>(n - 1);
    var forwarded := Nexts(kept);
    assert Run(test, st, Arrivals(ts)) == Step(rest.state, [Request(1)] + rest.out) by {
      RunArrivals(test, st, ts);
    }
    assert rest.out == requests + forwarded && rest.state == st.(skipped := kept != []) by {
      assert kept == DropWhile(test, ts[1..]);
    }
    assert [Request(1)] + rest.out == Replenish<T>(n) + forwarded by {
      assert Replenish<T>(n) == [Request(1)] + requests;
      Regroup([Request(1)], requests, forwarded);
    }
  }

  lemma {:induction false} KeepFirst<T>(test: T -> Verdict, st: State, ts: seq<T>)
    requires !st.done && !st.skipped
    requires ts != [] && test(ts[0]) == Keep
    ensures ForwardsSuffix(test, st, ts)
  {
    var st' := st.(skipped := true);
    assert Run(test, st, Arrivals(ts)) == Step(st', [OnNext(ts[0])] + Nexts(ts[1..])) by {
      RunArrivals(test, st, ts);
      assert OnNextStep(test, st, ts[0]) == Step(st', [OnNext(ts[0])]);
      SkippedForwardsAll(test, st', ts[1..]);
    }
    NextsFirst(ts);
    assert DropWhile(test, ts) == ts;
    assert Replenish<T>(0) + Nexts(ts) == Nexts(ts);
  }

  /** Over a run of values in which the predicate never throws, the values
      forwarded are the input with its longest predicate-true prefix
      removed, each dropped value causes exactly one `request(1)` upstream,
      ahead of anything forwarded, and the subscriber neither terminates
      nor signals anything else. */
  lemma {:induction false} SkipWhileForwardsSuffix<T>(test: T -> Verdict, st: State, ts: seq<T>)
    requires !st.done && !st.skipped
    requires forall i :: 0 <= i < |ts| ==> !test(ts[i]).Throws?
    ensures var kept := DropWhile(test, ts);
            var r := Run(test, st, Arrivals(ts));
            && r.out == Replenish(|ts| - |kept|) + Nexts(kept)
            && r.state == st.(skipped := kept != [])
    decreases |ts|
  {
    if ts == [] {
      assert Replenish<T>(0) + Nexts<T>([]) == [];
    } else if test(ts[0]) == Skip {
      SkipWhileForwardsSuffix(test, st, ts[1..]);
      SkipFirst(test, st, ts);
    } else {
      KeepFirst(test, st, ts);
    }
  }

  /** What a run does when the first value the predicate does not accept,
      at index `k`, makes it throw. */
  ghost predicate FailsAt<T>(test: T -> Verdict, st: State, ts: seq<T>, k: nat)
    requires k < |ts| && test(ts[k]).Throws?
  {
    Run(test, st, Arrivals(ts))
      == Step(st.(done := true), Replenish(k) + [Cancel, OnError(test(ts[k]).error)] + Dropped(ts[k + 1..]))
  }

  lemma {:induction false} ThrowFirst<T>(test: T -> Verdict, st: State, ts: seq<T>)
    requires !st.done && !st.skipped
    requires ts != [] && test(ts[0]).Throws?
    ensures FailsAt(test, st, ts, 0)
  {
    RunArrivals(test, st, ts);
    DoneDropsAll(test, st.(done := true), ts[1..]);
  }

  lemma {:induction false} SkipBeforeFailure<T>(test: T -> Verdict, st: State, ts: seq<T>, k: nat)
    requires !st.done && !st.skipped
    requires 0 < k < |ts| && test(ts[k]).Throws? && test(ts[0]) == Skip
    requires FailsAt(test, st, ts[1..], k - 1)
    ensures FailsAt(test, st, ts, k)
  {
    var failure: seq<Event<T>> := [Cancel, OnError(test(ts[k]).error)];
    var dropped := Dropped<T>(ts[k + 1..]);
    var rest := Run(test, st, Arrivals(ts[1..]));
    assert Run(test, st, Arrivals(ts)) == Step(rest.state, [Request(1)] + rest.out) by {
      RunArrivals(test, st, ts);
    }
    assert rest == Step(st.(done := true), Replenish<T>(k - 1) + (failure + dropped)) by {
      assert ts[1..][k..] == ts[k + 1..];
      assert ts[1..][k - 1] == ts[k];
      Regroup(Replenish<T>(k - 1), failure, dropped);
    }
    assert [Request(1)] + (Replenish<T>(k - 1) + (failure + dropped)) == Replenish<T>(k) + failure + dropped by {
      assert Replenish<T>(k) == [Request(1)] + Replenish<T>(k - 1);
      Regroup([Request(1)], Replenish<T>(k - 1), failure + dropped);
      Regroup(Replenish<T>(k), failure, dropped);
    }
  }

  /** When the first value the predicate does not accept makes it throw,
      upstream is cancelled first, then the failure is the one terminal
      signal downstream, and every later value goes to the dropped-value
      sink. */
  lemma {:induction false} PredicateFailureTerminates<T>(test: T -> Verdict, st: State, ts: seq<T>, k: nat)
    requires !st.done && !st.skipped
    requires k < |ts| && test(ts[k]).Throws?
    requires forall i :: 0 <= i < k ==> test(ts[i]) == Skip
    ensures Run(test, st, Arrivals(ts))
         == Step(st.(done := true),
                 Replenish(k) + [Cancel, OnError(test(ts[k]).error)] + Dropped(ts[k + 1..]))
    decreases k
  {
    if k == 0 {
      ThrowFirst(test, st, ts);
    } else {
      assert test(ts[0]) == Skip;
      PredicateFailureTerminates(test, st, ts[1..], k - 1);
      SkipBeforeFailure(test, st, ts, k);
    }
  }

  /** `PublisherSkipWhileSubscriber`. The predicate is fixed; `subscribed`
      stands for `s != null`. Every call appends what it causes to `log`. */
  class SkipWhileSubscriber<T> {
    const test: T -> Verdict
    var subscribed: bool
    var done: bool
    var skipped: bool
    var log: seq<Event<T>>

    ghost function Fields(): State
      reads this
    {
      State(subscribed, done, skipped)
    }

    ghost predicate Valid()
      reads this
    {
      WellFormed(Fields(), log)
    }

    constructor (test: T -> Verdict)
      ensures Valid() && this.test == test
      ensures Fields() == Fresh && log == []
    {
      this.test := test;
      subscribed, done, skipped := false, false, false;
      log := [];
    }

    method OnSubscribe()
      requires Valid()
      modifies this
      ensures Valid()
      ensures Fields() == OnSubscribeStep<T>(old(Fields())).state
      ensures log == old(log) + OnSubscribeStep(old(Fields())).out
    {
      ApplyKeepsWellFormed(test, Fields(), log, SubscribeIn);
      if !subscribed {
        subscribed := true;
        log := log + [Event.OnSubscribe];
      }
    }

    method OnNext(t: T)
      requires Valid() && subscribed
      modifies this
      ensures Valid()
      ensures Fields() == OnNextStep(test, old(Fields()), t).state
      ensures log == old(log) + OnNextStep(test, old(Fields()), t).out
    {
      ApplyKeepsWellFormed(test, Fields(), log, NextIn(t));
      if done {
        log := log + [NextDropped(t)];
        return;
      }
      if skipped {
        log := log + [Event.OnNext(t)];
        return;
      }
      var b := test(t);
      match b
      case Throws(e) =>
        log := log + [Event.Cancel];
        WellFormedSnoc(Fields(), old(log), Event.Cancel, Fields());
        OnError(e);
        assert log == old(log) + [Event.Cancel, Event.OnError(e)];
      case Skip =>
        log := log + [Event.Request(1)];
      case Keep =>
        skipped := true;
        log := log + [Event.OnNext(t)];
    }

    method OnError(e: Error)
      requires Valid()
      modifies this
      ensures Valid()
      ensures Fields() == OnErrorStep<T>(old(Fields()), e).state
      ensures log == old(log) + OnErrorStep(old(Fields()), e).out
    {
      ApplyKeepsWellFormed(test, Fields(), log, ErrorIn(e));
      if done {
        log := log + [ErrorDropped(e)];
        return;
      }
      done := true;
      log := log + [Event.OnError(e)];
    }

    method OnComplete()
      requires Valid()
      modifies this
      ensures Valid()
      ensures Fields() == OnCompleteStep<T>(old(Fields())).state
      ensures log == old(log) + OnCompleteStep(old(Fields())).out
    {
      ApplyKeepsWellFormed(test, Fields(), log, CompleteIn);
      if done {
        return;
      }
      done := true;
      log := log + [Event.OnComplete];
    }

    /** `isStarted()`: subscribed and not yet terminated. */
    function IsStarted(): (r: bool)
      requires Valid()
      reads this
      ensures r <==> subscribed && Terminals(log) == 0
    {
      subscribed && !done
    }

    /** `isTerminated()`: a terminal signal has gone downstream. */
    function IsTerminated(): (r: bool)
      requires Valid()
      reads this
      ensures r <==> Terminals(log) == 1
    {
      done
    }

    method Request(n: int)
      requires Valid() && subscribed
      modifies this
      ensures Valid()
      ensures Fields() == Apply(test, old(Fields()), RequestIn(n)).state
      ensures log == old(log) + Apply(test, old(Fields()), RequestIn(n)).out
    {
      ApplyKeepsWellFormed(test, Fields(), log, RequestIn(n));
      log := log + [Event.Request(n)];
    }

    method Cancel()
      requires Valid() && subscribed
      modifies this
      ensures Valid()
      ensures Fields() == Apply(test, old(Fields()), CancelIn).state
      ensures log == old(log) + Apply(test, old(Fields()), CancelIn).out
    {
      ApplyKeepsWellFormed(test, Fields(), log, CancelIn);
      log := log + [Event.Cancel];
    }
  }
}
