# Three reactive-streams operators, modelled and proved in Dafny

This project models three small stateful components of the reactive-streams-commons library. Each is a sequential state machine whose operations may be called in any order. Every compare-and-set is one atomic step. Each component is a class with the Java object's own fields. It also has an append-only `log` of the signals it sends: downstream (`onSubscribe`, `onNext`, `onError`, `onComplete`), upstream (`request`, `cancel`, `produced(c)`, the subscription to the publisher at index `i`), and to the diagnostic sinks (dropped values, dropped errors). The class methods are proved against pure transition functions. Lemmas state what the library promises about runs of those functions.

- `concat_iterable.dfy` (module `ConcatIterable`) models `PublisherConcatIterableSubscriber`.
  - It subscribes to the publishers of an iterator one at a time.
  - Its `wip` counter turns a completion that arrives while the drain loop runs into one more pass of the `do … while` loop.
  - Before each new subscription it flushes the count of values `produced` since the last one.
  - It stops on cancellation, on an iterator failure or on a null publisher.
  - The iterator is modelled as a finite sequence of entries: a publisher (its values, then completes, fails or stays pending), a null publisher, a `hasNext()` that throws, or a `next()` that throws.
  - A downstream `cancel()` racing with the loop is an input: the number of the `isCancelled()` check before which it lands.
  - `subscribe` is the module-level method `Subscribe`.
- `scalar_delayed.dfy` (module `ScalarDelayed`) models `SubscriberScalarDelayed`.
  - It is a one-value rendezvous with a 4-valued state tag: bit 0 means "has value", bit 1 means "has request".
  - The call that completes the request/value pair emits `onNext(value)` and then `onComplete()`.
  - `cancel` jumps to the final tag.
- `skip_while.dfy` (module `SkipWhile`) models `PublisherSkipWhileSubscriber`.
  - It drops values while the predicate accepts them and sends one `request(1)` upstream per dropped value.
  - From the first rejected value on, it forwards every value without consulting the predicate again.
  - A throwing predicate cancels upstream, then fails downstream.
  - Signals after termination go to the diagnostic sinks.
- `signals.dfy` (module `Signals`) holds the shared event type and the readings of a log: the downstream signals, the values delivered, and the number of terminal signals.

## Model

| member | source | states |
|---|---|---|
| ConcatIterable.Iter | src/main/java/reactivestreams/commons/PublisherConcatIterable.java:79-133 | One pass of the loop either returns or continues with the next entry. If it continues, `wip` is still positive and nothing is cancelled. If it returns, it returned idle exactly when `wip` is 0, and it was cancelled exactly when the cancelled flag is set. |
| ConcatIterable.Taking | src/main/java/reactivestreams/commons/PublisherConcatIterable.java:103-119 | After `hasNext()` is true, the part from `next()` to the null test keeps the same guarantees as a whole pass. |
| ConcatIterable.Subscribing | src/main/java/reactivestreams/commons/PublisherConcatIterable.java:121-133 | From the flush of `produced` to the decrement of `wip`, the pass continues only with `wip` positive and uncancelled. It returns idle exactly when `wip` reaches 0. |
| ConcatIterable.Loop | src/main/java/reactivestreams/commons/PublisherConcatIterable.java:79-133 | The drain loop returns idle exactly when `wip` is 0, so every early return leaves `wip` positive. It returns cancelled exactly when the cancelled flag is set. |
| ConcatIterable.IterSubscribes | src/main/java/reactivestreams/commons/PublisherConcatIterable.java:121-133 | Without a racing cancel, a pass that reaches a publisher flushes a nonzero `produced` once, subscribes to that publisher, and passes its values and its failure on. A synchronous completion adds one to `wip` before the decrement, and the loop goes on exactly when `wip` stays positive. |
| ConcatIterable.IterTerminates | src/main/java/reactivestreams/commons/PublisherConcatIterable.java:86-119 | Without a racing cancel, the end of the iterator sends one `onComplete`. A throwing `hasNext()`, a throwing `next()` or a null publisher sends one `onError`. Nothing is subscribed. |
| ConcatIterable.IterCancelIsLast | src/main/java/reactivestreams/commons/PublisherConcatIterable.java:80-82 | A pass entered cancelled returns at once and causes nothing. When a cancel lands during a pass, the multi-subscription's `cancel()` is the last thing the pass causes. |
| ConcatIterable.LoopContinues | src/main/java/reactivestreams/commons/PublisherConcatIterable.java:127-133 | A pass that subscribes and leaves `wip` positive is followed by the rest of the loop from the next entry. |
| ConcatIterable.LoopGoesIdle | src/main/java/reactivestreams/commons/PublisherConcatIterable.java:133 | A pass whose decrement brings `wip` to 0 ends the loop idle after that one subscription. |
| ConcatIterable.LoopTrace | src/main/java/reactivestreams/commons/PublisherConcatIterable.java:79-133 | Without cancellation, the loop entered with `wip` equal to 1 causes exactly the reference trace `Trace`. It stops at the first entry that is not a publisher completing synchronously. |
| ConcatIterable.TraceDownstream | src/main/java/reactivestreams/commons/PublisherConcatIterable.java:69-133 | Downstream, the trace is the values of the publishers in iterator order, then what the stopping entry causes. |
| ConcatIterable.TraceSubscriptions | src/main/java/reactivestreams/commons/PublisherConcatIterable.java:127 | Each publisher up to the stopping entry is subscribed to once, in iterator order. So is the stopping entry, if it is a publisher. |
| ConcatIterable.LoopAbsorbs | src/main/java/reactivestreams/commons/PublisherConcatIterable.java:77-133 | Each completion absorbed by `wip` costs exactly one more pass. Entered with `wip` counting a run of pending publishers, the loop subscribes to exactly those publishers and goes idle with `wip` equal to 0. |
| ConcatIterable.LoopCancelIsLast | src/main/java/reactivestreams/commons/PublisherConcatIterable.java:79-133 | A loop entered cancelled does nothing. If a cancel lands while the loop runs, nothing reaches the downstream after it. |
| ConcatIterable.StartRuns | src/main/java/reactivestreams/commons/PublisherConcatIterable.java:44-48 | Without a racing cancel, `subscribe` sends `onSubscribe` and then runs the loop from the first entry with nothing produced. |
| ConcatIterable.StartWithoutCancel | src/main/java/reactivestreams/commons/PublisherConcatIterable.java:44-133 | Downstream sees `onSubscribe`, then the publishers' values in iterator order, then what the stopping entry causes. Each publisher up to that entry is subscribed to once, in order. |
| ConcatIterable.CancelledAtStart | src/main/java/reactivestreams/commons/PublisherConcatIterable.java:46-48 | A downstream that cancels in `onSubscribe` stops the start-up. Only `onSubscribe` and the multi-subscription's `cancel()` happen, and `wip` stays 0. |
| ConcatIterable.ConcatenatesAll | src/main/java/reactivestreams/commons/PublisherConcatIterable.java:69-133 | When every publisher completes synchronously, downstream sees all their values in order and then one `onComplete`. Every publisher is subscribed to once, in order. |
| ConcatIterable.EmptyIteratorCompletes | src/main/java/reactivestreams/commons/PublisherConcatIterable.java:98-101 | An empty iterator yields `onSubscribe` and then `onComplete`. |
| ConcatIterable.ConcatScenario | src/main/java/reactivestreams/commons/PublisherConcatIterable.java:69-133 | Publishers emitting [1, 2], [] and [3] give 1, 2, 3, then completion. |
| ConcatIterable.IteratorFailureScenario | src/main/java/reactivestreams/commons/PublisherConcatIterable.java:105-110 | A `next()` that throws after two publishers fails the downstream right after their values. |
| ConcatIterable.ConcatIterableSubscriber.constructor | src/main/java/reactivestreams/commons/PublisherConcatIterable.java:63-66 | A new subscriber is at the start of the iterator, with `wip` and `produced` equal to 0, not cancelled, and nothing signalled. |
| ConcatIterable.ConcatIterableSubscriber.IsCancelled | src/main/java/reactivestreams/commons/PublisherConcatIterable.java:80 | One check: it reports the cancelled flag, after letting a scheduled cancel land. It signals nothing unless that cancel lands. |
| ConcatIterable.ConcatIterableSubscriber.OnNext | src/main/java/reactivestreams/commons/PublisherConcatIterable.java:69-73 | `produced` goes up by exactly one, and the value is forwarded unchanged. |
| ConcatIterable.ConcatIterableSubscriber.OnError | src/main/java/reactivestreams/commons/PublisherConcatIterable.java:89 | The error is passed downstream, and the state does not change. |
| ConcatIterable.ConcatIterableSubscriber.SubscribeTo | src/main/java/reactivestreams/commons/PublisherConcatIterable.java:127 | Subscribing delivers the publisher's values, adds their count to `produced`, and adds 1 to `wip` if the publisher completes. A failing publisher passes its error on. |
| ConcatIterable.ConcatIterableSubscriber.FlushAndSubscribe | src/main/java/reactivestreams/commons/PublisherConcatIterable.java:121-127 | A nonzero `produced` is handed over once and reset, then the publisher is subscribed to. A zero count sends nothing. |
| ConcatIterable.ConcatIterableSubscriber.OnComplete | src/main/java/reactivestreams/commons/PublisherConcatIterable.java:76-136 | While `wip` is nonzero, the call only increments it and signals nothing. Otherwise its effect on the state and the log is exactly the drain loop `Loop`. |
| ConcatIterable.ConcatIterableSubscriber.Iterate | src/main/java/reactivestreams/commons/PublisherConcatIterable.java:79-101 | One pass of the loop body, with exactly the effect of `Iter`. It reports whether the loop returns. |
| ConcatIterable.ConcatIterableSubscriber.TakeNext | src/main/java/reactivestreams/commons/PublisherConcatIterable.java:103-119 | The effect of `Taking`: `next()`, the check and the null test. |
| ConcatIterable.ConcatIterableSubscriber.SubscribeNext | src/main/java/reactivestreams/commons/PublisherConcatIterable.java:121-133 | The effect of `Subscribing`: the flush, the subscription, the check and the decrement of `wip`. |
| ConcatIterable.Subscribe | src/main/java/reactivestreams/commons/PublisherConcatIterable.java:42-48 | `subscribe` leaves a fresh subscriber whose state and log are exactly those of `Start`. |
| ScalarDelayed.ApplyKeepsInv | src/main/java/reactivestreams/commons/internal/subscriber/SubscriberScalarDelayed.java:27-30 | Every call keeps the tag among the four states. A value waiting for a request is present. |
| ScalarDelayed.RunMonotone | src/main/java/reactivestreams/commons/internal/subscriber/SubscriberScalarDelayed.java:46-114 | Over any sequence of calls, the tag only gains the "has request" and "has value" bits and never loses one. |
| ScalarDelayed.ApplyKeepsConsistent | src/main/java/reactivestreams/commons/internal/subscriber/SubscriberScalarDelayed.java:53-107 | No call emits a second value. A call that emits one leaves the tag final. |
| ScalarDelayed.RunEmitsAtMostOnce | src/main/java/reactivestreams/commons/internal/subscriber/SubscriberScalarDelayed.java:46-118 | Over any sequence of calls, in any order, at most one `onNext` is emitted, and only once the tag is final. |
| ScalarDelayed.FinalAbsorbs | src/main/java/reactivestreams/commons/internal/subscriber/SubscriberScalarDelayed.java:69-71 | The final tag, reached by `cancel` or by the emission, absorbs every call: the tag stays final and no value is emitted. |
| ScalarDelayed.NotFinalCanEmit | src/main/java/reactivestreams/commons/internal/subscriber/SubscriberScalarDelayed.java:53-107 | Short of the final tag, a request followed by a value emits exactly one value. It is the stored value if there is one, and the new value otherwise. |
| ScalarDelayed.ExpectedFirst | src/main/java/reactivestreams/commons/internal/subscriber/SubscriberScalarDelayed.java:46-114 | One call of a race moves the reference `Expected` along: what the call emits, followed by what the rest is still expected to emit. |
| ScalarDelayed.RendezvousMatchesExpected | src/main/java/reactivestreams/commons/internal/subscriber/SubscriberScalarDelayed.java:46-114 | Without cancellation or overwriting, the values emitted in any order of calls are exactly those of `Expected`. That is one value once both a valid request and a value have arrived, and nothing otherwise. |
| ScalarDelayed.RendezvousEmitsOnce | src/main/java/reactivestreams/commons/internal/subscriber/SubscriberScalarDelayed.java:46-114 | From the empty slot, exactly one value is emitted if and only if the calls hold both a valid request and a value. That value is the first one set, and never more than one value is emitted. |
| ScalarDelayed.SubscriberScalarDelayed.constructor | src/main/java/reactivestreams/commons/internal/subscriber/SubscriberScalarDelayed.java:41-43 | A new rendezvous has neither a request nor a value and has signalled nothing. |
| ScalarDelayed.SubscriberScalarDelayed.CasState | src/main/java/reactivestreams/commons/internal/subscriber/SubscriberScalarDelayed.java:128-130 | The compare-and-set succeeds exactly when the tag is the expected one, and only then writes the new tag. |
| ScalarDelayed.SubscriberScalarDelayed.Request | src/main/java/reactivestreams/commons/internal/subscriber/SubscriberScalarDelayed.java:46-66 | The effect of `RequestStep` is exactly this. An invalid count or a tag that already has a request changes nothing. Tag 1 moves to 3 and emits the value, then completion. Tag 0 moves to 2 silently. Consistency is kept. |
| ScalarDelayed.SubscriberScalarDelayed.Cancel | src/main/java/reactivestreams/commons/internal/subscriber/SubscriberScalarDelayed.java:69-71 | The tag becomes final and nothing is signalled. |
| ScalarDelayed.SubscriberScalarDelayed.OnNext | src/main/java/reactivestreams/commons/internal/subscriber/SubscriberScalarDelayed.java:75-77 | The value slot is overwritten, and the tag is left alone. |
| ScalarDelayed.SubscriberScalarDelayed.OnError | src/main/java/reactivestreams/commons/internal/subscriber/SubscriberScalarDelayed.java:80-82 | The error is passed downstream, and the slot does not change. |
| ScalarDelayed.SubscriberScalarDelayed.OnComplete | src/main/java/reactivestreams/commons/internal/subscriber/SubscriberScalarDelayed.java:90-92 | Completion is passed downstream, and the slot does not change. |
| ScalarDelayed.SubscriberScalarDelayed.SdsSet | src/main/java/reactivestreams/commons/internal/subscriber/SubscriberScalarDelayed.java:94-114 | The effect of `SetStep` is exactly this. With a value already present it changes nothing and keeps the stored value. Tag 2 moves to 3 and emits the new value, then completion. Tag 0 stores the value and moves to 1. |
| ScalarDelayed.SubscriberScalarDelayed.Set | src/main/java/reactivestreams/commons/internal/subscriber/SubscriberScalarDelayed.java:144-146 | `set` has exactly the effect of `sdsSet`. |
| ScalarDelayed.SubscriberScalarDelayed.IsCancelled | src/main/java/reactivestreams/commons/internal/subscriber/SubscriberScalarDelayed.java:116-118 | Holds exactly when the tag has both the request and the value bit. It also holds after a normal emission, not only after `cancel`. |
| ScalarDelayed.RequestThenSet | src/main/java/reactivestreams/commons/internal/subscriber/SubscriberScalarDelayed.java:101-107 | A request, then a value: the request alone emits nothing, and the call that sets the value emits the value and then completion. |
| ScalarDelayed.CancelThenRequestAndSet | src/main/java/reactivestreams/commons/internal/subscriber/SubscriberScalarDelayed.java:116-118 | After a cancel, a request and a value emit nothing, and `isCancelled` holds. |
| SkipWhile.ApplyKeepsWellFormed | src/main/java/rsc/publisher/PublisherSkipWhile.java:71-122 | Every call keeps `done` set exactly when one terminal signal has gone downstream. No value or second terminal signal follows it. |
| SkipWhile.RunKeepsWellFormed | src/main/java/rsc/publisher/PublisherSkipWhile.java:71-122 | Over any sequence of calls, only the first terminal signal reaches downstream and nothing follows it. |
| SkipWhile.SkippedForwardsAll | src/main/java/rsc/publisher/PublisherSkipWhile.java:77-80 | Once `skipped` is set, every value is forwarded unchanged and the predicate is not consulted. |
| SkipWhile.DoneDropsAll | src/main/java/rsc/publisher/PublisherSkipWhile.java:72-75 | After termination, every value goes to the dropped-value sink and the fields stay as they are. |
| SkipWhile.DropWhileIsLongestSkippedPrefix | src/main/java/rsc/publisher/PublisherSkipWhile.java:93-99 | The reference `DropWhile` removes exactly the longest prefix the predicate accepts. |
| SkipWhile.SkipFirst | src/main/java/rsc/publisher/PublisherSkipWhile.java:93-96 | An accepted first value costs one `request(1)` in front of whatever the rest of the run does. |
| SkipWhile.KeepFirst | src/main/java/rsc/publisher/PublisherSkipWhile.java:99-100 | A rejected first value sets `skipped`, and the whole run is forwarded. |
| SkipWhile.SkipWhileForwardsSuffix | src/main/java/rsc/publisher/PublisherSkipWhile.java:71-101 | Over a run where the predicate never throws, downstream gets the input with its longest accepted prefix removed. Upstream gets one `request(1)` per dropped value, ahead of the forwarded ones. Nothing else is signalled. |
| SkipWhile.ThrowFirst | src/main/java/rsc/publisher/PublisherSkipWhile.java:85-90 | A predicate that throws on the first value cancels upstream, fails downstream, and drops every later value. |
| SkipWhile.SkipBeforeFailure | src/main/java/rsc/publisher/PublisherSkipWhile.java:93-96 | An accepted value before the failing one adds one `request(1)` in front. |
| SkipWhile.PredicateFailureTerminates | src/main/java/rsc/publisher/PublisherSkipWhile.java:85-112 | When the first value not accepted makes the predicate throw, there is one `request(1)` per earlier value, then the upstream cancel, then the one `onError`. `done` is set, and every later value goes to the dropped-value sink. |
| SkipWhile.SkipWhileSubscriber.constructor | src/main/java/rsc/publisher/PublisherSkipWhile.java:57-60 | A new subscriber has no subscription, is neither done nor skipping, and has signalled nothing. |
| SkipWhile.SkipWhileSubscriber.OnSubscribe | src/main/java/rsc/publisher/PublisherSkipWhile.java:63-68 | The first subscription is stored and passed downstream as `onSubscribe`. A later one changes nothing. |
| SkipWhile.SkipWhileSubscriber.OnNext | src/main/java/rsc/publisher/PublisherSkipWhile.java:71-101 | The effect of `OnNextStep`, with the invariant kept. After `done`, the value goes to the sink. After `skipped`, it is forwarded. An accepted value costs one `request(1)`. A rejected one sets `skipped` and is forwarded. A throwing predicate causes a cancel, then `onError`, and sets `done`. |
| SkipWhile.SkipWhileSubscriber.OnError | src/main/java/rsc/publisher/PublisherSkipWhile.java:104-112 | The first terminal signal sets `done` and goes downstream. A later error goes to the dropped-error sink. |
| SkipWhile.SkipWhileSubscriber.OnComplete | src/main/java/rsc/publisher/PublisherSkipWhile.java:115-122 | The first terminal signal sets `done` and goes downstream. A later completion is ignored. |
| SkipWhile.SkipWhileSubscriber.IsStarted | src/main/java/rsc/publisher/PublisherSkipWhile.java:125-127 | Holds exactly when a subscription is set and no terminal signal has gone downstream. |
| SkipWhile.SkipWhileSubscriber.IsTerminated | src/main/java/rsc/publisher/PublisherSkipWhile.java:130-132 | Holds exactly when the one terminal signal has gone downstream. |
| SkipWhile.SkipWhileSubscriber.Request | src/main/java/rsc/publisher/PublisherSkipWhile.java:150-152 | The request is forwarded upstream unchanged, and the fields do not change. |
| SkipWhile.SkipWhileSubscriber.Cancel | src/main/java/rsc/publisher/PublisherSkipWhile.java:155-157 | The cancel is forwarded upstream, and the fields do not change. |

## Left out

- Threads, `volatile` fields and compare-and-set contention are not modelled. Calls run one at a time, so each `for (;;)` retry loop in `SubscriberScalarDelayed` succeeds on its first pass and is written without the loop.
- `SubscriberMultiSubscription` is not part of this model. Its `produced(c)`, `onError`, `isCancelled()` and `cancel()` are recorded as events in the log. `ConcatIterable.ConcatIterableSubscriber.Cancel` stands for the downstream `cancel()` on it.
- A downstream `cancel()` from another thread is modelled only as landing just before a chosen `isCancelled()` check (`cancelAt`). The `checks` counter exists only to place it.
- The start of `subscribe` in `PublisherConcatIterable` is not modelled: the failing or null `iterable.iterator()` call and `EmptySubscription.error`. The model starts from an iterator that exists.
- Publishers are finite and synchronous. A publisher that stays pending completes later only through an outside call of `OnComplete`.
- Concretely:
  - `SubscriptionHelper.validate(n)` is modelled as `n > 0`, and its reporting of a bad request is left out;
  - `validate(current, next)` in skip-while is modelled as accepting only the first subscription, and the cancelling of a second one is left out;
  - `ExceptionHelper.throwIfFatal`/`unwrap` are left out: a throwing predicate is a non-fatal error passed on as it is;
  - the `UnsignalledExceptions` sinks are log events.
- The error values are abstract: `Thrown(code)` for an exception and `NullPublisher` for the NullPointerException raised for a null publisher.
- Java's `long` counters (`produced`, `request(n)`) are unbounded integers here, so overflow is not modelled.
- Null values are not modelled: Dafny's values are never null, so the `Objects.requireNonNull(value)` of `sdsSet` always passes. The unchecked cast in `SubscriberScalarDelayed.onNext` is left out too.
- The introspection getters (`downstream`, `upstream`, `connectedInput`, `sdsGetState`, `sdsGetValue`, `sdsGetSubscriber`) only return fields and are not modelled. `sdsSetState` is folded into `Cancel`, and `sdsSetValue` into `SdsSet`.
- SkipWhile.SkipWhileSubscriber.OnNext: it requires a subscription to be set, which the Reactive Streams protocol guarantees before any `onNext`. The source would otherwise dereference a null `s` when the predicate accepts or throws.
- SkipWhile.SkipWhileSubscriber.Request: it requires a subscription to be set, as the source dereferences `s`. The same holds for `SkipWhile.SkipWhileSubscriber.Cancel`.
- The `onSubscribe` of `SubscriberScalarDelayed` does nothing, so the class has no method for it. `SubscribeCall` in `Apply` leaves the slot alone.
