/**
 Signals shared by the three operators: the errors they deliver, the events
 they cause (downstream Reactive Streams signals, calls on the upstream
 subscription, diagnostic-sink reports, and the bookkeeping calls of the
 concatenation operator), and functions that read an append-only event log.
 */
module Signals {

  datatype Option<+T> = None | Some(value: T)

  /** A Throwable. `Thrown(code)` stands for an exception raised by code the
      model cannot see (a predicate, an iterator, an upstream publisher);
      `NullPublisher` is the NullPointerException the concatenation operator
      creates when the iterator hands it a null publisher. */
  datatype Error = Thrown(code: nat) | NullPublisher

  datatype Event<T> =
    // signals delivered to the downstream subscriber
    | OnSubscribe
    | OnNext(value: T)
    | OnError(error: Error)
    | OnComplete
    // calls on the upstream subscription; in the concatenation, `cancel()`
    // on the multi-subscription, made whether or not a publisher is
    // subscribed yet
    | Request(n: int)
    | Cancel
    // concatenation: `p.subscribe(this)` on the publisher at `index`, and
    // `produced(count)` on the multi-subscription
    | Subscribed(index: nat)
    | Produced(count: nat)
    // reports to the diagnostic sink for signals arriving after termination
    | NextDropped(value: T)
    | ErrorDropped(error: Error)

  predicate IsDownstream<T>(e: Event<T>) {
    e.OnSubscribe? || e.OnNext? || e.OnError? || e.OnComplete?
  }

  predicate IsTerminal<T>(e: Event<T>) {
    e.OnError? || e.OnComplete?
  }

  /** The values delivered downstream, in order. */
  function Values<T>(log: seq<Event<T>>): seq<T> {
    if log == [] then []
    else Values(log[..|log| - 1]) + (if log[|log| - 1].OnNext? then [log[|log| - 1].value] else [])
  }

  /** The downstream part of a log, in order. */
  function Downstream<T>(log: seq<Event<T>>): seq<Event<T>> {
    if log == [] then []
    else Downstream(log[..|log| - 1]) + (if IsDownstream(log[|log| - 1]) then [log[|log| - 1]] else [])
  }

  /** Number of terminal signals delivered downstream. */
  function Terminals<T>(log: seq<Event<T>>): nat {
    if log == [] then 0
    else Terminals(log[..|log| - 1]) + (if IsTerminal(log[|log| - 1]) then 1 else 0)
  }

  /** `onNext(v)` for each of `vs`, in order. */
  function Nexts<T>(vs: seq<T>): (r: seq<Event<T>>)
    ensures |r| == |vs|
    ensures forall i :: 0 <= i < |vs| ==> r[i] == OnNext(vs[i])
  {
    if vs == [] then [] else Nexts(vs[..|vs| - 1]) + [OnNext(vs[|vs| - 1])]
  }

  /** What appending one event does to the readings of a log. */
  lemma {:induction false} Snoc<T>(log: seq<Event<T>>, e: Event<T>)
    ensures Values(log + [e]) == Values(log) + (if e.OnNext? then [e.value] else [])
    ensures Downstream(log + [e]) == Downstream(log) + (if IsDownstream(e) then [e] else [])
    ensures Terminals(log + [e]) == Terminals(log) + (if IsTerminal(e) then 1 else 0)
  {
    assert (log + [e])[..|log|] == log;
  }

  lemma {:induction false} ValuesAppend<T>(a: seq<Event<T>>, b: seq<Event<T>>)
    ensures Values(a + b) == Values(a) + Values(b)
    decreases |b|
  {
    if b == [] {
      assert a + b == a;
    } else {
      var b' := b[..|b| - 1];
      assert (a + b)[..|a + b| - 1] == a + b';
      ValuesAppend(a, b');
    }
  }

  lemma {:induction false} DownstreamAppend<T>(a: seq<Event<T>>, b: seq<Event<T>>)
    ensures Downstream(a + b) == Downstream(a) + Downstream(b)
    decreases |b|
  {
    if b == [] {
      assert a + b == a;
    } else {
      var b' := b[..|b| - 1];
      assert (a + b)[..|a + b| - 1] == a + b';
      DownstreamAppend(a, b');
    }
  }

  /** A run of `onNext` signals delivers exactly its values downstream and
      nothing terminal. */
  lemma {:induction false} NextsDeliver<T>(vs: seq<T>)
    ensures Values(Nexts(vs)) == vs
    ensures Downstream(Nexts(vs)) == Nexts(vs)
    ensures Terminals(Nexts(vs)) == 0
    decreases |vs|
  {
    if vs != [] {
      var vs' := vs[..|vs| - 1];
      NextsDeliver(vs');
      assert Nexts(vs)[..|vs| - 1] == Nexts(vs');
    }
  }

  lemma NextsAppend<T>(a: seq<T>, b: seq<T>)
    ensures Nexts(a + b) == Nexts(a) + Nexts(b)
  {
  }

  /** A non-empty run of values delivers its first value, then the rest. */
  lemma {:induction false} NextsFirst<T>(ts: seq<T>)
    requires ts != []
    ensures Nexts(ts) == [OnNext(ts[0])] + Nexts(ts[1..])
  {
    NextsAppend([ts[0]], ts[1..]);
    assert [ts[0]] + ts[1..] == ts;
  }

  /** Regrouping a concatenation, stated on plain sequences so that a proof
      using it does not look inside their parts. */
  lemma Regroup<X>(a: seq<X>, b: seq<X>, c: seq<X>)
    ensures a + (b + c) == (a + b) + c
  {
  }
}
