/**
 The drain loop of `PublisherConcatIterableSubscriber`: it walks an iterator
 of publishers and subscribes to them one at a time. Re-entrant `onComplete`
 calls (a publisher that completes while it is being subscribed to) are
 turned into extra iterations of one loop by the `wip` counter, and the
 count of values `produced` since the last subscription is flushed to the
 multi-subscription before each new subscription.

 The iterator is a sequence of entries, each saying what `hasNext()` and
 `next()` do at that position. A publisher emits its values synchronously
 when subscribed to, then completes, fails, or stays pending (it would
 complete later, from elsewhere, by an outside call of `onComplete`).
 A `cancel()` racing in from the downstream is an input too: `cancelAt` is
 the number of the `isCancelled()` check before which it lands.
 */
module ConcatIterable {
  import opened Signals

  /** How a publisher ends after emitting its values. */
  datatype Ending = Completes | Fails(error: Error) | Pending

  /** What the iterator yields at one position. */
  datatype Entry<T> =
    | Pub(values: seq<T>, ending: Ending)  // `hasNext()` is true, `next()` returns this publisher
    | NullPub                              // `hasNext()` is true, `next()` returns null
    | HasNextThrows(error: Error)          // `hasNext()` throws
    | NextThrows(error: Error)             // `hasNext()` is true, `next()` throws

  /** The iterator's entries (`hasNext()` is false after the last one) and
      the check before which a downstream `cancel()` lands, if any. */
  datatype Config<T> = Config(sources: seq<Entry<T>>, cancelAt: Option<nat>)

  /** The subscriber's state apart from its log: the iterator's position,
      `wip`, `produced`, the multi-subscription's cancelled flag, and the
      number of `isCancelled()` checks made so far. */
  datatype Model = Model(cursor: nat, wip: nat, produced: nat, cancelled: bool, checks: nat)

  /** Why the drain loop returned. */
  datatype Exit = Idle | Cancelled | Completed | Failed

  /** The state when the loop returns, the events the loop caused, and how
      it returned. */
  datatype Turn<T> = Turn(m: Model, out: seq<Event<T>>, exit: Exit)

  /** What one iteration of the loop does: it returns, or it decrements
      `wip` to a positive value and goes on with the next iteration. */
  datatype Move<T> = Return(t: Turn<T>) | Continue(next: Model, out: seq<Event<T>>)
  {
    /** The state after the iteration, whether or not the loop goes on. */
    function State(): Model {
      if Return? then t.m else next
    }

    /** What the iteration caused. */
    function Out(): seq<Event<T>> {
      if Return? then t.out else out
    }
  }

  predicate IsCompleting<T>(e: Entry<T>) {
    e.Pub? && e.ending.Completes?
  }

  /** One `isCancelled()` check; a racing `cancel()` scheduled for this
      check lands just before it. */
  function Check<T>(cfg: Config<T>, m: Model): Model {
    m.(checks := m.checks + 1, cancelled := m.cancelled || cfg.cancelAt == Some(m.checks))
  }

  /** The upstream cancel caused by a racing `cancel()` landing at the check. */
  function Cancelling<T>(cfg: Config<T>, m: Model): seq<Event<T>> {
    if cfg.cancelAt == Some(m.checks) && !m.cancelled then [Cancel] else []
  }

  /** `produced(c)` for a nonzero count. */
  function FlushEvents<T>(p: nat): seq<Event<T>> {
    if p != 0 then [Produced(p)] else []
  }

  /** What the publisher's end causes downstream; a completion re-enters
      `onComplete`, which only increments `wip` while the loop runs. */
  function EndEvents<T>(ending: Ending): seq<Event<T>> {
    if ending.Fails? then [OnError(ending.error)] else []
  }

  /** Flushing `produced` (`p`) and `p.subscribe(this)` on the publisher at
      `index`. */
  function Piece<T>(p: nat, index: nat, vs: seq<T>, ending: Ending): seq<Event<T>> {
    FlushEvents(p) + [Subscribed(index)] + Nexts(vs) + EndEvents(ending)
  }

  /** One iteration of the `do … while` loop: the check, `hasNext()`, the
      check, the end of the iterator or `next()`, the check, the null test,
      the flush of `produced` and the subscription, the check, and the
      decrement of `wip`. A synchronous completion during the subscription
      has incremented `wip`, so the decrement leaves it positive and the
      loop goes on with the next entry. */
  function Iter<T>(cfg: Config<T>, m: Model): (r: Move<T>)
    requires m.cursor <= |cfg.sources| && m.wip >= 1
    ensures r.Continue? ==> r.next.cursor == m.cursor + 1 && r.next.wip >= 1 && !r.next.cancelled
    ensures r.Return? ==> r.t.m.cursor <= |cfg.sources|
    ensures r.Return? ==> (r.t.exit == Idle <==> r.t.m.wip == 0) && (r.t.m.cancelled <==> r.t.exit == Cancelled)
  {
    var src := cfg.sources;
    var i := m.cursor;
    var m1 := Check(cfg, m);
    if m1.cancelled then Return(Turn(m1, Cancelling(cfg, m), Cancelled))
    else if i < |src| && src[i].HasNextThrows? then Return(Turn(m1, [OnError(src[i].error)], Failed))
    else
      var m2 := Check(cfg, m1);
      if m2.cancelled then Return(Turn(m2, Cancelling(cfg, m1), Cancelled))
      else if i == |src| then Return(Turn(m2, [OnComplete], Completed))
      else Taking(cfg, m2, i)
  }

  /** The middle of an iteration once `hasNext()` said yes: `next()`, the
      check, and the null test. */
  function Taking<T>(cfg: Config<T>, m: Model, i: nat): (r: Move<T>)
    requires i < |cfg.sources| && !cfg.sources[i].HasNextThrows? && m.cursor == i && m.wip >= 1 && !m.cancelled
    ensures r.Continue? ==> r.next.cursor == m.cursor + 1 && r.next.wip >= 1 && !r.next.cancelled
    ensures r.Return? ==> r.t.m.cursor <= |cfg.sources|
    ensures r.Return? ==> (r.t.exit == Idle <==> r.t.m.wip == 0) && (r.t.m.cancelled <==> r.t.exit == Cancelled)
  {
    var src := cfg.sources;
    if src[i].NextThrows? then Return(Turn(m, [OnError(src[i].error)], Failed))
    else
      var m3 := Check(cfg, m.(cursor := i + 1));
      if m3.cancelled then Return(Turn(m3, Cancelling(cfg, m), Cancelled))
      else if src[i].NullPub? then Return(Turn(m3, [OnError(NullPublisher)], Failed))
      else Subscribing(cfg, m3, i)
  }

  /** The end of an iteration that took the publisher at `i` from the
      iterator (`m.cursor` is already past it): the flush of `produced`,
      the subscription, the check, and the decrement of `wip`. */
  function Subscribing<T>(cfg: Config<T>, m: Model, i: nat): (r: Move<T>)
    requires i < |cfg.sources| && cfg.sources[i].Pub? && m.cursor == i + 1 && m.wip >= 1
    ensures r.Continue? ==> r.next.cursor == m.cursor && r.next.wip >= 1 && !r.next.cancelled
    ensures r.Return? ==> r.t.m.cursor == m.cursor
    ensures r.Return? ==> (r.t.exit == Idle <==> r.t.m.wip == 0) && (r.t.m.cancelled <==> r.t.exit == Cancelled)
  {
    var e := cfg.sources[i];
    var piece := Piece(m.produced, i, e.values, e.ending);
    var m4 := m.(produced := |e.values|, wip := m.wip + (if e.ending.Completes? then 1 else 0));
    var m5 := Check(cfg, m4);
    if m5.cancelled then Return(Turn(m5, piece + Cancelling(cfg, m4), Cancelled))
    else if m5.wip == 1 then Return(Turn(m5.(wip := 0), piece, Idle))
    else Continue(m5.(wip := m5.wip - 1), piece)
  }

  /** The drain loop: iterations until one returns. Every return but the
      one where `wip` reaches 0 leaves `wip` positive. */
  function Loop<T>(cfg: Config<T>, m: Model): (r: Turn<T>)
    requires m.cursor <= |cfg.sources| && m.wip >= 1
    ensures r.m.cursor <= |cfg.sources|
    ensures r.exit == Idle <==> r.m.wip == 0
    ensures r.m.cancelled <==> r.exit == Cancelled
    decreases |cfg.sources| - m.cursor
  {
    match Iter(cfg, m)
    case Return(t) => t
    case Continue(next, out) =>
      var rest := Loop(cfg, next);
      Turn(rest.m, out + rest.out, rest.exit)
  }

  /** The start-up in `subscribe`: `onSubscribe` downstream, then, unless
      cancelled, the first `onComplete`, which enters the loop. */
  function Start<T>(cfg: Config<T>): Turn<T> {
    var m0 := Model(0, 0, 0, false, 0);
    var m1 := Check(cfg, m0);
    if m1.cancelled then Turn(m1, [OnSubscribe] + Cancelling(cfg, m0), Cancelled)
    else
      var d := Loop(cfg, m1.(wip := 1));
      Turn(d.m, [OnSubscribe] + d.out, d.exit)
  }

  // ---------------------------------------------------------------------
  // Readings of the log and reference definitions

  /** The indices of the publishers subscribed to, in order. */
  function Subscriptions<T>(log: seq<Event<T>>): seq<nat> {
    if log == [] then []
    else Subscriptions(log[..|log| - 1]) + (if log[|log| - 1].Subscribed? then [log[|log| - 1].index] else [])
  }

  lemma {:induction false} SubscriptionsAppend<T>(a: seq<Event<T>>, b: seq<Event<T>>)
    ensures Subscriptions(a + b) == Subscriptions(a) + Subscriptions(b)
    decreases |b|
  {
    if b == [] {
      assert a + b == a;
    } else {
      var b' := b[..|b| - 1];
      assert (a + b)[..|a + b| - 1] == a + b';
      SubscriptionsAppend(a, b');
    }
  }

  lemma {:induction false} NextsSubscribeNothing<T>(vs: seq<T>)
    ensures Subscriptions(Nexts(vs)) == []
    decreases |vs|
  {
    if vs != [] {
      NextsSubscribeNothing(vs[..|vs| - 1]);
      assert Nexts(vs)[..|vs| - 1] == Nexts(vs[..|vs| - 1]);
    }
  }

  /** The values a publisher entry emits (none for the other entries). */
  function ValuesOf<T>(e: Entry<T>): seq<T> {
    if e.Pub? then e.values else []
  }

  /** The values of a run of entries, concatenated in iterator order. */
  function Flatten<T>(es: seq<Entry<T>>): seq<T> {
    if es == [] then [] else ValuesOf(es[0]) + Flatten(es[1..])
  }

  /** The integers `i`, `i + 1`, …, `k - 1`. */
  function Range(i: nat, k: nat): (r: seq<nat>)
    ensures |r| == if i <= k then k - i else 0
    decreases k - i
  {
    if i >= k then [] else [i] + Range(i + 1, k)
  }

  /** The first position from `i` on whose entry is not a publisher that
      completes synchronously. */
  function Stop<T>(src: seq<Entry<T>>, i: nat): (r: nat)
    requires i <= |src|
    ensures i <= r <= |src|
    ensures r < |src| ==> !IsCompleting(src[r])
    decreases |src| - i
  {
    if i < |src| && IsCompleting(src[i]) then Stop(src, i + 1) else i
  }

  /** What the downstream sees from the entry at `k` that stops the loop. */
  function Finish<T>(src: seq<Entry<T>>, k: nat): seq<Event<T>>
    requires k <= |src|
  {
    if k == |src| then [OnComplete]
    else match src[k]
      case Pub(vs, ending) => Nexts(vs) + EndEvents(ending)
      case NullPub => [OnError(NullPublisher)]
      case HasNextThrows(e) => [OnError(e)]
      case NextThrows(e) => [OnError(e)]
  }

  /** How the loop returns at the entry `k` that stops it. */
  function ExitAt<T>(src: seq<Entry<T>>, k: nat): Exit
    requires k <= |src|
  {
    if k == |src| then Completed else if src[k].Pub? then Idle else Failed
  }


  lemma {:induction false} SingleReadings<T>(e: Event<T>)
    ensures Downstream([e]) == if IsDownstream(e) then [e] else []
    ensures Subscriptions([e]) == if e.Subscribed? then [e.index] else []
  {
    assert [e][..0] == [];
  }

  lemma {:induction false} FlushReadings<T>(p: nat)
    ensures Downstream<T>(FlushEvents(p)) == [] && Subscriptions<T>(FlushEvents(p)) == []
  {
    if p != 0 {
      SingleReadings<T>(Produced(p));
    }
  }

  lemma {:induction false} EndReadings<T>(ending: Ending)
    ensures Downstream<T>(EndEvents(ending)) == EndEvents(ending) && Subscriptions<T>(EndEvents(ending)) == []
  {
    if ending.Fails? {
      SingleReadings<T>(OnError(ending.error));
    }
  }

  lemma {:induction false} DownstreamOfFour<T>(a: seq<Event<T>>, b: seq<Event<T>>, c: seq<Event<T>>, d: seq<Event<T>>)
    ensures Downstream(a + b + c + d) == Downstream(a) + Downstream(b) + Downstream(c) + Downstream(d)
  {
    DownstreamAppend(a, b);
    DownstreamAppend(a + b, c);
    DownstreamAppend(a + b + c, d);
  }

  lemma {:induction false} SubscriptionsOfFour<T>(a: seq<Event<T>>, b: seq<Event<T>>, c: seq<Event<T>>, d: seq<Event<T>>)
    ensures Subscriptions(a + b + c + d) == Subscriptions(a) + Subscriptions(b) + Subscriptions(c) + Subscriptions(d)
  {
    SubscriptionsAppend(a, b);
    SubscriptionsAppend(a + b, c);
    SubscriptionsAppend(a + b + c, d);
  }

  /** Subscribing to a publisher passes its values and its failure on
      downstream; the flush does not reach the downstream. */
  lemma {:induction false} PieceDownstream<T>(p: nat, index: nat, vs: seq<T>, ending: Ending)
    ensures Downstream(Piece(p, index, vs, ending)) == Nexts(vs) + EndEvents(ending)
  {
    var f: seq<Event<T>> := FlushEvents(p);
    var s: seq<Event<T>> := [Subscribed(index)];
    var n := Nexts(vs);
    var e: seq<Event<T>> := EndEvents(ending);
    DownstreamOfFour(f, s, n, e);
    assert Downstream(f) == [] by { FlushReadings<T>(p); }
    assert Downstream(s) == [] by { SingleReadings<T>(Subscribed(index)); }
    assert Downstream(n) == n by { NextsDeliver(vs); }
    assert Downstream(e) == e by { EndReadings<T>(ending); }
    assert [] + [] + n + e == n + e;
  }

  /** … and subscribes to exactly that publisher. */
  lemma {:induction false} PieceSubscriptions<T>(p: nat, index: nat, vs: seq<T>, ending: Ending)
    ensures Subscriptions(Piece(p, index, vs, ending)) == [index]
  {
    var f: seq<Event<T>> := FlushEvents(p);
    var s: seq<Event<T>> := [Subscribed(index)];
    var n := Nexts(vs);
    var e: seq<Event<T>> := EndEvents(ending);
    SubscriptionsOfFour(f, s, n, e);
    assert Subscriptions(f) == [] by { FlushReadings<T>(p); }
    assert Subscriptions(s) == [index] by { SingleReadings<T>(Subscribed(index)); }
    assert Subscriptions(n) == [] by { NextsSubscribeNothing(vs); }
    assert Subscriptions(e) == [] by { EndReadings<T>(ending); }
    assert [] + [index] + [] + [] == [index];
  }

  lemma {:induction false} FinishReadings<T>(src: seq<Entry<T>>, k: nat)
    requires k <= |src| && (k < |src| ==> !src[k].Pub?)
    ensures Downstream(Finish(src, k)) == Finish(src, k) && Subscriptions(Finish(src, k)) == []
  {
    SingleReadings(Finish(src, k)[0]);
  }

  // ---------------------------------------------------------------------
  // One iteration

  /** The state after an iteration passes the publisher at the cursor
      without a racing cancel: four checks made, `produced` holding that
      publisher's count, and `wip` decremented unless the publisher
      completed. */
  function AfterSubscribing<T>(cfg: Config<T>, m: Model): Model
    requires m.cursor < |cfg.sources| && cfg.sources[m.cursor].Pub? && m.wip >= 1
  {
    var e := cfg.sources[m.cursor];
    Model(m.cursor + 1, if e.ending.Completes? then m.wip else m.wip - 1, |e.values|, false, m.checks + 4)
  }

  /** Without a racing cancel, an iteration that reaches a publisher flushes
      `produced`, subscribes to it, and decrements `wip` once for the
      increment a synchronous completion made: the loop goes on exactly
      when `wip` stays above zero. */
  lemma {:induction false} IterSubscribes<T>(cfg: Config<T>, m: Model)
    requires cfg.cancelAt.None? && !m.cancelled && m.wip >= 1
    requires m.cursor < |cfg.sources| && cfg.sources[m.cursor].Pub?
    ensures var e := cfg.sources[m.cursor];
      var m' := AfterSubscribing(cfg, m);
      var piece := Piece(m.produced, m.cursor, e.values, e.ending);
      Iter(cfg, m) == if m'.wip == 0 then Return(Turn(m', piece, Idle)) else Continue(m', piece)
  {
  }

  /** Without a racing cancel, the end of the iterator completes the
      downstream, and an iterator failure or a null publisher fails it;
      nothing is subscribed. */
  lemma {:induction false} IterTerminates<T>(cfg: Config<T>, m: Model)
    requires cfg.cancelAt.None? && !m.cancelled && m.wip >= 1
    requires m.cursor <= |cfg.sources| && (m.cursor < |cfg.sources| ==> !cfg.sources[m.cursor].Pub?)
    ensures Iter(cfg, m).Return?
    ensures Iter(cfg, m).t.exit == ExitAt(cfg.sources, m.cursor)
    ensures Iter(cfg, m).t.out == Finish(cfg.sources, m.cursor)
  {
  }

  /** A cancel that lands during an iteration is the last thing it causes,
      and an iteration entered cancelled does nothing. */
  lemma {:induction false} IterCancelIsLast<T>(cfg: Config<T>, m: Model)
    requires m.cursor <= |cfg.sources| && m.wip >= 1
    ensures m.cancelled ==> Iter(cfg, m) == Return(Turn(Check(cfg, m), [], Cancelled))
    ensures var r := Iter(cfg, m);
      r.Return? && r.t.exit == Cancelled && !m.cancelled ==> r.t.out != [] && r.t.out[|r.t.out| - 1] == Cancel
  {
  }

  // ---------------------------------------------------------------------
  // The whole loop

  /** The loop after an iteration that subscribes and keeps `wip` positive. */
  lemma {:induction false} LoopContinues<T>(cfg: Config<T>, m: Model)
    requires cfg.cancelAt.None? && !m.cancelled && m.wip >= 1
    requires m.cursor < |cfg.sources| && cfg.sources[m.cursor].Pub?
    requires AfterSubscribing(cfg, m).wip >= 1
    ensures var e := cfg.sources[m.cursor];
      var d := Loop(cfg, AfterSubscribing(cfg, m));
      Loop(cfg, m) == Turn(d.m, Piece(m.produced, m.cursor, e.values, e.ending) + d.out, d.exit)
  {
    IterSubscribes(cfg, m);
  }

  /** The loop when that iteration brings `wip` to zero: it returns idle. */
  lemma {:induction false} LoopGoesIdle<T>(cfg: Config<T>, m: Model)
    requires cfg.cancelAt.None? && !m.cancelled && m.wip >= 1
    requires m.cursor < |cfg.sources| && cfg.sources[m.cursor].Pub?
    requires AfterSubscribing(cfg, m).wip == 0
    ensures var e := cfg.sources[m.cursor];
      Loop(cfg, m) == Turn(AfterSubscribing(cfg, m), Piece(m.produced, m.cursor, e.values, e.ending), Idle)
  {
    IterSubscribes(cfg, m);
  }

  /** What the loop, entered with `wip == 1` at entry `i` with `p` values
      produced, causes when nothing cancels it: for each publisher that
      completes synchronously, a flush and its subscription; then, at the
      first entry that is not such a publisher, the end of the iterator,
      the failure, or the subscription to a publisher that stays pending or
      fails. */
  function Trace<T>(src: seq<Entry<T>>, i: nat, p: nat): seq<Event<T>>
    requires i <= |src|
    decreases |src| - i
  {
    if i < |src| && src[i].Pub? then
      var e := src[i];
      if e.ending.Completes? then Piece(p, i, e.values, e.ending) + Trace(src, i + 1, |e.values|)
      else Piece(p, i, e.values, e.ending)
    else Finish(src, i)
  }

  /** Without cancellation, the loop entered with `wip == 1` (`r` is what it
      does) causes exactly its trace and returns at the first entry that is
      not a publisher completing synchronously. */
  lemma {:induction false} LoopTrace<T>(cfg: Config<T>, m: Model, r: Turn<T>)
    requires cfg.cancelAt.None? && !m.cancelled && m.wip == 1 && m.cursor <= |cfg.sources|
    requires r == Loop(cfg, m)
    ensures r.exit == ExitAt(cfg.sources, Stop(cfg.sources, m.cursor))
    ensures r.out == Trace(cfg.sources, m.cursor, m.produced)
    decreases |cfg.sources| - m.cursor
  {
    var src := cfg.sources;
    if m.cursor < |src| && src[m.cursor].Pub? {
      var e := src[m.cursor];
      if e.ending.Completes? {
        LoopContinues(cfg, m);
        var m' := AfterSubscribing(cfg, m);
        LoopTrace(cfg, m', Loop(cfg, m'));
      } else {
        LoopGoesIdle(cfg, m);
        assert Piece(m.produced, m.cursor, e.values, e.ending) + [] == Piece(m.produced, m.cursor, e.values, e.ending);
      }
    } else {
      IterTerminates(cfg, m);
    }
  }

  lemma {:induction false} DownstreamStep<T>(piece: seq<Event<T>>, rest: seq<Event<T>>, vs: seq<T>, more: seq<T>, fin: seq<Event<T>>)
    requires Downstream(piece) == Nexts(vs) && Downstream(rest) == Nexts(more) + fin
    ensures Downstream(piece + rest) == Nexts(vs + more) + fin
  {
    DownstreamAppend(piece, rest);
    NextsAppend(vs, more);
  }

  /** The trace `t` read downstream: the values of the publishers in
      iterator order, then what the stopping entry causes. */
  lemma {:induction false} TraceDownstream<T>(src: seq<Entry<T>>, i: nat, p: nat, t: seq<Event<T>>)
    requires i <= |src| && t == Trace(src, i, p)
    ensures Downstream(t) == Nexts(Flatten(src[i..Stop(src, i)])) + Finish(src, Stop(src, i))
    decreases |src| - i
  {
    var k := Stop(src, i);
    if i < |src| && src[i].Pub? {
      var e := src[i];
      var piece := Piece(p, i, e.values, e.ending);
      PieceDownstream(p, i, e.values, e.ending);
      if e.ending.Completes? {
        var rest := Trace(src, i + 1, |e.values|);
        TraceDownstream(src, i + 1, |e.values|, rest);
        assert src[i..k][1..] == src[i + 1..k];
        DownstreamStep(piece, rest, e.values, Flatten(src[i + 1..k]), Finish(src, k));
      } else {
        assert t == piece;
        assert src[i..k] == [];
      }
    } else {
      FinishReadings(src, i);
      assert src[i..k] == [];
    }
  }

  /** An empty range in front of `tail` leaves `tail`. */
  lemma {:induction false} EmptyRange(i: nat, tail: seq<nat>)
    ensures Range(i, i) + tail == tail
  {
    assert Range(i, i) == [];
  }

  /** The step of `TraceSubscriptions`: a piece subscribing to `i` before a
      rest subscribing to the ones after it. */
  lemma {:induction false} SubscriptionsStep<T>(t: seq<Event<T>>, piece: seq<Event<T>>, rest: seq<Event<T>>, i: nat, k: nat, tail: seq<nat>)
    requires t == piece + rest && i < k
    requires Subscriptions(piece) == [i] && Subscriptions(rest) == Range(i + 1, k) + tail
    ensures Subscriptions(t) == Range(i, k) + tail
  {
    SubscriptionsAppend(piece, rest);
    assert Range(i, k) == [i] + Range(i + 1, k);
    Regroup([i], Range(i + 1, k), tail);
  }

  /** The subscription the stopping entry `k` makes, if it is a publisher. */
  function StopTail<T>(src: seq<Entry<T>>, k: nat): seq<nat> {
    if k < |src| && src[k].Pub? then [k] else []
  }

  /** The trace read upstream: each publisher up to the stopping entry is
      subscribed to once, in order, and so is the stopping entry if it is a
      publisher. */
  lemma {:induction false} TraceSubscriptions<T>(src: seq<Entry<T>>, i: nat, p: nat)
    requires i <= |src|
    ensures Subscriptions(Trace(src, i, p)) == Range(i, Stop(src, i)) + StopTail(src, Stop(src, i))
    decreases |src| - i
  {
    var k := Stop(src, i);
    var t := Trace(src, i, p);
    if i < |src| && src[i].Pub? {
      var e := src[i];
      var piece := Piece(p, i, e.values, e.ending);
      if e.ending.Completes? {
        var rest := Trace(src, i + 1, |e.values|);
        assert t == piece + rest;
        assert Subscriptions(piece) == [i] by { PieceSubscriptions(p, i, e.values, e.ending); }
        assert k == Stop(src, i + 1);
        TraceSubscriptions(src, i + 1, |e.values|);
        SubscriptionsStep(t, piece, rest, i, k, StopTail(src, k));
      } else {
        assert k == i && t == piece;
        PieceSubscriptions(p, i, e.values, e.ending);
        EmptyRange(i, [i]);
      }
    } else {
      assert k == i;
      FinishReadings(src, i);
      EmptyRange(i, []);
    }
  }

  /** The entries from `i` up to `k` are publishers that stay pending. */
  predicate PendingRun<T>(src: seq<Entry<T>>, i: nat, k: nat)
    decreases k - i
  {
    i >= k || (i < |src| && src[i].Pub? && src[i].ending.Pending? && PendingRun(src, i + 1, k))
  }

  /** Each completion absorbed while the loop runs costs one more iteration:
      entered with `wip` counting the publishers from the cursor up to `k`,
      all of which stay pending, the loop `r` subscribes to exactly those
      publishers and then goes idle with `wip == 0`. */
  lemma {:induction false} LoopAbsorbs<T>(cfg: Config<T>, m: Model, k: nat, r: Turn<T>)
    requires cfg.cancelAt.None? && !m.cancelled && m.cursor < k && m.wip == k - m.cursor
    requires PendingRun(cfg.sources, m.cursor, k) && r == Loop(cfg, m)
    ensures r.exit == Idle && r.m.wip == 0 && r.m.cursor == k
    ensures Subscriptions(r.out) == Range(m.cursor, k)
    decreases k - m.cursor
  {
    var i := m.cursor;
    var e := cfg.sources[i];
    var piece := Piece(m.produced, i, e.values, e.ending);
    var m' := AfterSubscribing(cfg, m);
    PieceSubscriptions(m.produced, i, e.values, e.ending);
    if i + 1 < k {
      var d := Loop(cfg, m');
      assert r == Turn(d.m, piece + d.out, d.exit) by { LoopContinues(cfg, m); }
      LoopAbsorbs(cfg, m', k, d);
      SubscriptionsAppend(piece, d.out);
    } else {
      assert r == Turn(m', piece, Idle) by { LoopGoesIdle(cfg, m); }
      assert Range(i, i + 1) == [i];
    }
  }

  /** A cancel that lands while the loop `r` runs is the last thing the loop
      causes: nothing reaches the downstream after it. A loop entered
      already cancelled does nothing. */
  lemma {:induction false} LoopCancelIsLast<T>(cfg: Config<T>, m: Model, r: Turn<T>)
    requires m.cursor <= |cfg.sources| && m.wip >= 1 && r == Loop(cfg, m)
    ensures m.cancelled ==> r.exit == Cancelled && r.out == []
    ensures !m.cancelled && r.exit == Cancelled ==> r.out != [] && r.out[|r.out| - 1] == Cancel
    decreases |cfg.sources| - m.cursor
  {
    IterCancelIsLast(cfg, m);
    var mv := Iter(cfg, m);
    if mv.Continue? {
      var rest := Loop(cfg, mv.next);
      LoopCancelIsLast(cfg, mv.next, rest);
      assert r.out == mv.out + rest.out;
    }
  }

  // ---------------------------------------------------------------------
  // Start-up

  /** Without cancellation, `subscribe` signals `onSubscribe` and then runs
      the loop from the first entry with nothing produced. */
  lemma {:induction false} StartRuns<T>(cfg: Config<T>)
    requires cfg.cancelAt.None?
    ensures Start(cfg).exit == ExitAt(cfg.sources, Stop(cfg.sources, 0))
    ensures Start(cfg).out == [OnSubscribe] + Trace(cfg.sources, 0, 0)
  {
    var m := Model(0, 1, 0, false, 1);
    LoopTrace(cfg, m, Loop(cfg, m));
  }

  lemma {:induction false} StartReadings<T>(src: seq<Entry<T>>, out: seq<Event<T>>)
    requires out == [OnSubscribe] + Trace(src, 0, 0)
    ensures var k := Stop(src, 0);
      Downstream(out) == [OnSubscribe] + Nexts(Flatten(src[..k])) + Finish(src, k)
      && Subscriptions(out) == Range(0, k) + (if k < |src| && src[k].Pub? then [k] else [])
  {
    var t := Trace(src, 0, 0);
    var k := Stop(src, 0);
    var vs := Nexts(Flatten(src[..k]));
    var tail := if k < |src| && src[k].Pub? then [k] else [];
    assert Downstream(t) == vs + Finish(src, k) by {
      TraceDownstream(src, 0, 0, t);
      assert src[0..k] == src[..k];
    }
    assert Subscriptions(t) == Range(0, k) + tail by { TraceSubscriptions(src, 0, 0); }
    SingleReadings<T>(OnSubscribe);
    DownstreamAppend([OnSubscribe], t);
    SubscriptionsAppend([OnSubscribe], t);
    Regroup([OnSubscribe], vs, Finish(src, k));
  }

  /** Without cancellation, the downstream sees `onSubscribe`, then the
      values of the publishers in iterator order up to the first entry that
      is not a publisher completing synchronously, and then what that entry
      causes; each of those publishers is subscribed to once, in order. */
  lemma {:induction false} StartWithoutCancel<T>(cfg: Config<T>)
    requires cfg.cancelAt.None?
    ensures var src := cfg.sources;
      var k := Stop(src, 0);
      Start(cfg).exit == ExitAt(src, k)
      && Downstream(Start(cfg).out) == [OnSubscribe] + Nexts(Flatten(src[..k])) + Finish(src, k)
      && Subscriptions(Start(cfg).out) == Range(0, k) + (if k < |src| && src[k].Pub? then [k] else [])
  {
    StartRuns(cfg);
    StartReadings(cfg.sources, Start(cfg).out);
  }

  /** A downstream that cancels in `onSubscribe` stops the start-up before
      the loop: nothing is subscribed and nothing else is signalled. */
  lemma {:induction false} CancelledAtStart<T>(cfg: Config<T>)
    requires cfg.cancelAt == Some(0)
    ensures Start(cfg).out == [OnSubscribe, Cancel] && Start(cfg).m.wip == 0
  {
  }

  lemma {:induction false} StopAtEnd<T>(src: seq<Entry<T>>, i: nat)
    requires i <= |src|
    requires forall j :: i <= j < |src| ==> IsCompleting(src[j])
    ensures Stop(src, i) == |src|
    decreases |src| - i
  {
    if i < |src| {
      StopAtEnd(src, i + 1);
    }
  }

  /** Publishers that all complete synchronously are concatenated: the
      downstream sees every value in iterator order, then one
      `onComplete`, and every publisher is subscribed once, in order. */
  lemma {:induction false} ConcatenatesAll<T>(cfg: Config<T>)
    requires cfg.cancelAt.None?
    requires forall j :: 0 <= j < |cfg.sources| ==> IsCompleting(cfg.sources[j])
    ensures Downstream(Start(cfg).out) == [OnSubscribe] + Nexts(Flatten(cfg.sources)) + [OnComplete]
    ensures Subscriptions(Start(cfg).out) == Range(0, |cfg.sources|)
  {
    StartWithoutCancel(cfg);
    StopAtEnd(cfg.sources, 0);
    assert cfg.sources[..|cfg.sources|] == cfg.sources;
  }

  /** An empty iterator completes the downstream right after `onSubscribe`. */
  lemma {:induction false} EmptyIteratorCompletes<T>()
    ensures Start<T>(Config([], None)).out == [OnSubscribe, OnComplete]
  {
  }

  /** Three publishers emitting 1, 2, then nothing, then 3: the downstream
      sees 1, 2, 3 and completes. */
  lemma {:induction false} ConcatScenario(cfg: Config<int>)
    requires cfg == Config([Pub([1, 2], Completes), Pub([], Completes), Pub([3], Completes)], None)
    ensures Downstream(Start(cfg).out) == [OnSubscribe, OnNext(1), OnNext(2), OnNext(3), OnComplete]
  {
    var src := cfg.sources;
    ConcatenatesAll(cfg);
    assert src[1..][1..][1..] == [];
    assert Flatten(src[1..][1..]) == [3];
    assert Flatten(src[1..]) == [3];
    assert Flatten(src) == [1, 2, 3];
  }

  /** An iterator whose third `next()` throws: the values of the first two
      publishers, then that error. */
  lemma {:induction false} IteratorFailureScenario(cfg: Config<int>)
    requires cfg == Config([Pub([1], Completes), Pub([2], Completes), NextThrows(Thrown(7))], None)
    ensures Downstream(Start(cfg).out) == [OnSubscribe, OnNext(1), OnNext(2), OnError(Thrown(7))]
  {
    var src := cfg.sources;
    StartWithoutCancel(cfg);
    assert Stop(src, 2) == 2;
    assert Stop(src, 1) == 2;
    assert Stop(src, 0) == 2;
    var first := src[..2];
    assert first[1..][1..] == [];
    assert Flatten(first[1..]) == [2];
    assert Flatten(first) == [1, 2];
  }

  /** The loop from `m`, after `before` was logged. */
  function Drained<T>(cfg: Config<T>, m: Model, before: seq<Event<T>>): Turn<T>
    requires m.cursor <= |cfg.sources| && m.wip >= 1
  {
    var d := Loop(cfg, m);
    Turn(d.m, before + d.out, d.exit)
  }

  /** One turn of the drain loop, as its invariant sees it. */
  lemma {:induction false} LoopUnrolls<T>(cfg: Config<T>, m: Model, before: seq<Event<T>>)
    requires m.cursor <= |cfg.sources| && m.wip >= 1
    ensures var mv := Iter(cfg, m);
      mv.Return? ==> Drained(cfg, m, before) == Turn(mv.State(), before + mv.Out(), mv.t.exit)
    ensures var mv := Iter(cfg, m);
      mv.Continue? ==> Drained(cfg, m, before) == Drained(cfg, mv.State(), before + mv.Out())
  {
    var mv := Iter(cfg, m);
    if mv.Continue? {
      var d := Loop(cfg, mv.next);
      Regroup(before, mv.out, d.out);
    }
  }

  // ---------------------------------------------------------------------
  // The subscriber

  /** `PublisherConcatIterableSubscriber`: the drain state, the flag of the
      multi-subscription it extends, and the log of what it has caused. */
  class ConcatIterableSubscriber<T> {
    const sources: seq<Entry<T>>
    const cancelAt: Option<nat>
    var cursor: nat
    var wip: nat
    var produced: nat
    var cancelled: bool
    var checks: nat
    var log: seq<Event<T>>

    function Cfg(): Config<T> {
      Config(sources, cancelAt)
    }

    function Snapshot(): Model
      reads this
    {
      Model(cursor, wip, produced, cancelled, checks)
    }

    constructor (sources: seq<Entry<T>>, cancelAt: Option<nat>)
      ensures this.sources == sources && this.cancelAt == cancelAt
      ensures Snapshot() == Model(0, 0, 0, false, 0) && log == []
    {
      this.sources, this.cancelAt := sources, cancelAt;
      cursor, wip, produced, cancelled, checks := 0, 0, 0, false, 0;
      log := [];
    }

    /** `isCancelled()`, with the racing `cancel()` scheduled for this check
        landing just before it. */
    method IsCancelled() returns (c: bool)
      modifies this
      ensures Snapshot() == Check(Cfg(), old(Snapshot()))
      ensures log == old(log) + Cancelling(Cfg(), old(Snapshot()))
      ensures c == cancelled && (!c ==> log == old(log))
    {
      if cancelAt == Some(checks) && !cancelled {
        cancelled := true;
        log := log + [Event.Cancel];
      }
      checks := checks + 1;
      c := cancelled;
    }

    /** The downstream's `cancel()`: the first one cancels the upstream. */
    method Cancel()
      modifies this
      ensures Snapshot() == old(Snapshot()).(cancelled := true)
      ensures log == old(log) + if old(cancelled) then [] else [Event.Cancel]
    {
      if !cancelled {
        cancelled := true;
        log := log + [Event.Cancel];
      }
    }

    method OnNext(t: T)
      modifies this
      ensures Snapshot() == old(Snapshot()).(produced := old(produced) + 1)
      ensures log == old(log) + [Event.OnNext(t)]
    {
      produced := produced + 1;
      log := log + [Event.OnNext(t)];
    }

    method OnError(e: Error)
      modifies this
      ensures Snapshot() == old(Snapshot())
      ensures log == old(log) + [Event.OnError(e)]
    {
      log := log + [Event.OnError(e)];
    }

    /** `p.subscribe(this)` on the publisher at `index`: it emits its values
        and then completes (re-entering `onComplete` while the loop runs),
        fails, or stays pending. */
    method SubscribeTo(index: nat, values: seq<T>, ending: Ending)
      requires cursor <= |sources| && wip >= 1
      modifies this
      ensures Snapshot() == old(Snapshot()).(produced := old(produced) + |values|,
                                             wip := old(wip) + if ending.Completes? then 1 else 0)
      ensures log == old(log) + [Subscribed(index)] + Nexts(values) + EndEvents(ending)
      decreases 1
    {
      log := log + [Subscribed(index)];
      var j := 0;
      while j < |values|
        invariant j <= |values| && wip == old(wip)
        invariant Snapshot() == old(Snapshot()).(produced := old(produced) + j)
        invariant log == old(log) + [Subscribed(index)] + Nexts(values[..j])
      {
        OnNext(values[j]);
        assert values[..j + 1][..j] == values[..j];
        j := j + 1;
      }
      assert values[..j] == values;
      match ending
      case Completes => OnComplete();
      case Fails(e) => OnError(e);
      case Pending =>
    }

    /** `onComplete()`: an increment of `wip` while the loop runs, and
        otherwise the drain loop, one `Iterate` per pass. */
    method OnComplete()
      requires cursor <= |sources|
      modifies this
      ensures old(wip) != 0 ==> Snapshot() == old(Snapshot()).(wip := old(wip) + 1) && log == old(log)
      ensures old(wip) == 0 ==>
        var d := Loop(Cfg(), old(Snapshot()).(wip := 1));
        Snapshot() == d.m && log == old(log) + d.out
      decreases if wip == 0 then 6 else 0
    {
      var w := wip;
      wip := wip + 1;
      if w != 0 {
        return;
      }
      ghost var cfg := Cfg();
      ghost var target := Drained(cfg, Snapshot(), log);
      while true
        invariant cursor <= |sources| && wip >= 1
        invariant target == Drained(cfg, Snapshot(), log)
        decreases |sources| - cursor
      {
        LoopUnrolls(cfg, Snapshot(), log);
        var done := Iterate();
        if done {
          return;
        }
      }
    }

    /** Hands the count of values produced so far to the multi-subscription
        and subscribes to the publisher at `index`. */
    method FlushAndSubscribe(index: nat, values: seq<T>, ending: Ending)
      requires cursor <= |sources| && wip >= 1
      modifies this
      ensures Snapshot() == old(Snapshot()).(produced := |values|,
                                             wip := old(wip) + if ending.Completes? then 1 else 0)
      ensures log == old(log) + Piece(old(produced), index, values, ending)
      decreases 2
    {
      var flushed := produced;
      if flushed != 0 {
        produced := 0;
        log := log + [Produced(flushed)];
      }
      SubscribeTo(index, values, ending);
    }

    method Iterate() returns (done: bool)
      requires cursor <= |sources| && wip >= 1
      modifies this
      ensures var mv := Iter(Cfg(), old(Snapshot()));
        done == mv.Return? && Snapshot() == mv.State() && log == old(log) + mv.Out()
      decreases 5
    {
      ghost var cfg, m0 := Cfg(), Snapshot();
      var i := cursor;
      done := true;
      var c := IsCancelled();
      ghost var m1 := Snapshot();
      if c {
        assert Iter(cfg, m0) == Return(Turn(m1, Cancelling(cfg, m0), Cancelled));
        return;
      }
      if i < |sources| && sources[i].HasNextThrows? {
        OnError(sources[i].error);
        assert Iter(cfg, m0) == Return(Turn(m1, [Event.OnError(sources[i].error)], Failed));
        return;
      }
      var b := i < |sources|;
      c := IsCancelled();
      ghost var m2 := Snapshot();
      if c {
        assert Iter(cfg, m0) == Return(Turn(m2, Cancelling(cfg, m1), Cancelled));
        return;
      }
      if !b {
        log := log + [Event.OnComplete];
        assert Iter(cfg, m0) == Return(Turn(m2, [Event.OnComplete], Completed));
        return;
      }
      assert Iter(cfg, m0) == Taking(cfg, m2, i);
      done := TakeNext(i);
    }

    /** The middle of a pass: `next()`, the check, and the null test. */
    method TakeNext(i: nat) returns (done: bool)
      requires i < |sources| && !sources[i].HasNextThrows? && cursor == i && wip >= 1 && !cancelled
      modifies this
      ensures var mv := Taking(Cfg(), old(Snapshot()), i);
        done == mv.Return? && Snapshot() == mv.State() && log == old(log) + mv.Out()
      decreases 4
    {
      ghost var cfg, m0 := Cfg(), Snapshot();
      done := true;
      if sources[i].NextThrows? {
        log := log + [Event.OnError(sources[i].error)];
        assert Taking(cfg, m0, i) == Return(Turn(m0, [Event.OnError(sources[i].error)], Failed));
        return;
      }
      var p := sources[i];
      cursor := i + 1;
      var c := IsCancelled();
      ghost var m3 := Snapshot();
      assert m3 == Check(cfg, m0.(cursor := i + 1));
      if c {
        assert Taking(cfg, m0, i) == Return(Turn(m3, Cancelling(cfg, m0), Cancelled));
        return;
      }
      if p.NullPub? {
        log := log + [Event.OnError(NullPublisher)];
        assert Taking(cfg, m0, i) == Return(Turn(m3, [Event.OnError(NullPublisher)], Failed));
        return;
      }
      assert Taking(cfg, m0, i) == Subscribing(cfg, m3, i);
      done := SubscribeNext(i);
    }

    /** The end of a pass, from the flush to the decrement of `wip`. */
    method SubscribeNext(i: nat) returns (done: bool)
      requires i < |sources| && sources[i].Pub? && cursor == i + 1 && wip >= 1
      modifies this
      ensures var mv := Subscribing(Cfg(), old(Snapshot()), i);
        done == mv.Return? && Snapshot() == mv.State() && log == old(log) + mv.Out()
      decreases 3
    {
      done := true;
      FlushAndSubscribe(i, sources[i].values, sources[i].ending);
      var c := IsCancelled();
      if c {
        return;
      }
      wip := wip - 1;
      done := wip == 0;
    }
  }

  /** `subscribe(s)`: `onSubscribe` downstream, then the first `onComplete`
      unless the downstream has cancelled. */
  method Subscribe<T>(sources: seq<Entry<T>>, cancelAt: Option<nat>) returns (parent: ConcatIterableSubscriber<T>)
    ensures fresh(parent) && parent.sources == sources && parent.cancelAt == cancelAt
    ensures parent.Snapshot() == Start(Config(sources, cancelAt)).m
    ensures parent.log == Start(Config(sources, cancelAt)).out
  {
    parent := new ConcatIterableSubscriber(sources, cancelAt);
    parent.log := parent.log + [OnSubscribe];
    var c := parent.IsCancelled();
    if !c {
      parent.OnComplete();
    }
  }
}
