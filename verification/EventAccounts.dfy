/** What a log of queue entries says about the stream it came from. */
module EventAccounts {
  import opened InProcessEvents

  /** Parts of a stream: its lossless tier, its token refreshes, and what is forwarded. */
  datatype Part = Lossless | TokenRefreshes | Forwardable

  predicate In(p: Part, e: Event) {
    match p
    case Lossless => RequiresDelivery(e)
    case TokenRefreshes => IsTokenRefresh(e)
    case Forwardable => !IsTokenRefresh(e)
  }

  function Select(p: Part, es: seq<Event>): (r: seq<Event>)
    ensures forall e :: e in r ==> In(p, e) && e in es
  {
    if es == [] then []
    else Select(p, es[..|es| - 1]) + (if In(p, es[|es| - 1]) then [es[|es| - 1]] else [])
  }

  lemma {:induction false} SelectAppend(p: Part, a: seq<Event>, b: seq<Event>)
    ensures Select(p, a + b) == Select(p, a) + Select(p, b)
  {
    if b == [] {
      assert a + b == a;
    } else {
      assert (a + b)[..|a + b| - 1] == a + b[..|b| - 1];
      SelectAppend(p, a, b[..|b| - 1]);
    }
  }

  lemma {:induction false} SelectNone(p: Part, es: seq<Event>)
    requires forall e :: e in es ==> !In(p, e)
    ensures Select(p, es) == []
  {
    if es != [] { SelectNone(p, es[..|es| - 1]); }
  }

  function Requests(es: seq<Event>): (r: seq<ServerRequest>) {
    if es == [] then []
    else Requests(es[..|es| - 1]) + (if es[|es| - 1].Request? then [es[|es| - 1].request] else [])
  }

  lemma {:induction false} RequestsAppend(a: seq<Event>, b: seq<Event>)
    ensures Requests(a + b) == Requests(a) + Requests(b)
  {
    if b == [] {
      assert a + b == a;
    } else {
      assert (a + b)[..|a + b| - 1] == a + b[..|b| - 1];
      RequestsAppend(a, b[..|b| - 1]);
    }
  }

  /** The requests failed with a given code, in the order they were failed. */
  function FailedWith(failed: seq<Failure>, code: int): (r: seq<ServerRequest>) {
    if failed == [] then []
    else FailedWith(failed[..|failed| - 1], code) +
         (if failed[|failed| - 1].code == code then [failed[|failed| - 1].request] else [])
  }

  /** The events as the consumer reads them: a marker shows only how many are missing. */
  function Wire(log: seq<Entry>): (r: seq<Event>)
    ensures |r| == |log|
  {
    if log == [] then []
    else Wire(log[..|log| - 1]) +
         (match log[|log| - 1] case Delivered(e) => [e] case Gap(ds) => [Lagged(Saturated(|ds|))])
  }

  /** The log with every marker replaced by the events it stands for. */
  function Expanded(log: seq<Entry>): (r: seq<Event>) {
    if log == [] then []
    else Expanded(log[..|log| - 1]) +
         (match log[|log| - 1] case Delivered(e) => [e] case Gap(ds) => ds)
  }

  function Deliveries(log: seq<Entry>): (r: seq<Event>) {
    if log == [] then []
    else Deliveries(log[..|log| - 1]) +
         (match log[|log| - 1] case Delivered(e) => [e] case Gap(_) => [])
  }

  function Drops(log: seq<Entry>): (r: seq<Event>) {
    if log == [] then []
    else Drops(log[..|log| - 1]) +
         (match log[|log| - 1] case Delivered(_) => [] case Gap(ds) => ds)
  }

  lemma {:induction false} Snoc(log: seq<Entry>, x: Entry)
    ensures Wire(log + [x]) == Wire(log) + (match x case Delivered(e) => [e] case Gap(ds) => [Lagged(Saturated(|ds|))])
    ensures Expanded(log + [x]) == Expanded(log) + (match x case Delivered(e) => [e] case Gap(ds) => ds)
    ensures Deliveries(log + [x]) == Deliveries(log) + (match x case Delivered(e) => [e] case Gap(_) => [])
    ensures Drops(log + [x]) == Drops(log) + (match x case Delivered(_) => [] case Gap(ds) => ds)
  {
    assert (log + [x])[..|log + [x]| - 1] == log;
  }

  lemma {:induction false} SelectSnoc(p: Part, es: seq<Event>, e: Event)
    ensures In(p, e) ==> Select(p, es + [e]) == Select(p, es) + [e]
    ensures !In(p, e) ==> Select(p, es + [e]) == Select(p, es)
  {
    assert (es + [e])[..|es + [e]| - 1] == es;
  }

  lemma {:induction false} RequestsSnoc(es: seq<Event>, e: Event)
    ensures e.Request? ==> Requests(es + [e]) == Requests(es) + [e.request]
    ensures !e.Request? ==> Requests(es + [e]) == Requests(es)
  {
    assert (es + [e])[..|es + [e]| - 1] == es;
  }

  lemma {:induction false} FailedSnoc(failed: seq<Failure>, f: Failure, code: int)
    ensures f.code == code ==> FailedWith(failed + [f], code) == FailedWith(failed, code) + [f.request]
    ensures f.code != code ==> FailedWith(failed + [f], code) == FailedWith(failed, code)
  {
    assert (failed + [f])[..|failed + [f]| - 1] == failed;
  }

  /** Every event of the stream is either delivered or dropped, and not both. */
  lemma {:induction false} DeliveredOrDropped(log: seq<Entry>)
    ensures multiset(Expanded(log)) == multiset(Deliveries(log)) + multiset(Drops(log))
  {
    if log != [] {
      DeliveredOrDropped(log[..|log| - 1]);
    }
  }

  lemma {:induction false} RequestsByElements(a: seq<Event>, r: ServerRequest)
    ensures multiset(Requests(a))[r] == multiset(a)[Request(r)]
  {
    if a != [] {
      assert a == a[..|a| - 1] + [a[|a| - 1]];
      RequestsByElements(a[..|a| - 1], r);
    }
  }

  /** If nothing lossless was dropped, the deliveries hold the lossless events complete
      and in order, and so does the consumer's view of the log. */
  lemma {:induction false} LosslessKept(log: seq<Entry>)
    requires forall e :: e in Drops(log) ==> !RequiresDelivery(e)
    ensures Select(Lossless, Wire(log)) == Select(Lossless, Expanded(log))
  {
    if log != [] {
      var init, x := log[..|log| - 1], log[|log| - 1];
      LosslessKept(init);
      match x
      case Delivered(e) =>
        SelectAppend(Lossless, Expanded(init), [e]);
        SelectAppend(Lossless, Wire(init), [e]);
      case Gap(ds) =>
        SelectNone(Lossless, ds);
        SelectAppend(Lossless, Expanded(init), ds);
        var marker := Lagged(Saturated(|ds|));
        SelectNone(Lossless, [marker]);
        SelectAppend(Lossless, Wire(init), [marker]);
    }
  }

  lemma {:induction false} WireRequests(log: seq<Entry>)
    ensures Requests(Wire(log)) == Requests(Deliveries(log))
  {
    if log != [] {
      var init, x := log[..|log| - 1], log[|log| - 1];
      WireRequests(init);
      match x
      case Delivered(e) =>
        RequestsAppend(Wire(init), [e]);
        RequestsAppend(Deliveries(init), [e]);
      case Gap(ds) =>
        RequestsAppend(Wire(init), [Lagged(Saturated(|ds|))]);
        assert Deliveries(log) == Deliveries(init);
    }
  }

  /** No entry overtakes what came before it: what the log says up to any entry is the
      start of what the whole log says. */
  lemma {:induction false} ExpandedPrefix(log: seq<Entry>, k: nat)
    requires k <= |log|
    ensures Expanded(log[..k]) <= Expanded(log)
  {
    if k < |log| {
      var init := log[..|log| - 1];
      ExpandedPrefix(init, k);
      assert init[..k] == log[..k];
    } else {
      assert log[..k] == log;
    }
  }

  // ----- the books stay true to the stream

  /** The log, the drops still counted, the event in hand and the lost one are the
      forwarded stream; the counter is the number of drops still to report, saturated;
      nothing lossless was dropped. */
  ghost predicate StreamOk(b: Books, hand: seq<Event>, source: seq<Event>) {
    && Expanded(b.log) + b.pending + hand + b.lost == Select(Forwardable, source)
    && b.skipped == Saturated(|b.pending|)
    && (forall e :: e in Drops(b.log) ==> !RequiresDelivery(e))
    && (forall e :: e in b.pending ==> !RequiresDelivery(e))
  }

  lemma {:induction false} StreamTake(b: Books, source: seq<Event>, e: Event)
    requires StreamOk(b, [], source) && b.lost == []
    ensures StreamOk(b, if IsTokenRefresh(e) then [] else [e], source + [e])
  {
    SelectSnoc(Forwardable, source, e);
  }

  lemma {:induction false} StreamFlush(b: Books, hand: seq<Event>, source: seq<Event>)
    requires StreamOk(b, hand, source)
    ensures StreamOk(Flushed(b), hand, source)
  {
    Snoc(b.log, Gap(b.pending));
  }

  lemma {:induction false} StreamDrop(b: Books, e: Event, source: seq<Event>)
    requires StreamOk(b, [e], source) && !RequiresDelivery(e)
    ensures StreamOk(Dropped(b, e), [], source)
  {
  }

  lemma {:induction false} StreamQueue(b: Books, e: Event, source: seq<Event>)
    requires StreamOk(b, [e], source) && b.pending == []
    ensures StreamOk(Queued(b, e), [], source)
  {
    Snoc(b.log, Delivered(e));
  }

  lemma {:induction false} StreamLose(b: Books, e: Event, source: seq<Event>)
    requires StreamOk(b, [e], source) && b.lost == []
    ensures StreamOk(Disabled(b, e), [], source)
  {
  }

  /** The requests failed are the token refreshes taken and the requests dropped, in order. */
  ghost predicate FailedOk(b: Books, source: seq<Event>) {
    && FailedWith(b.failed, TOKEN_REFRESH_UNSUPPORTED) == Requests(Select(TokenRefreshes, source))
    && FailedWith(b.failed, EVENT_QUEUE_FULL) == Requests(Drops(b.log) + b.pending)
    && (forall f :: f in b.failed ==> f.code == TOKEN_REFRESH_UNSUPPORTED || f.code == EVENT_QUEUE_FULL)
  }

  lemma {:induction false} FailedTake(b: Books, source: seq<Event>, e: Event)
    requires FailedOk(b, source)
    ensures IsTokenRefresh(e) ==>
            FailedOk(b.(failed := b.failed + [Failure(e.request, TOKEN_REFRESH_UNSUPPORTED)]), source + [e])
    ensures !IsTokenRefresh(e) ==> FailedOk(b, source + [e])
  {
    SelectSnoc(TokenRefreshes, source, e);
    if IsTokenRefresh(e) {
      var f := Failure(e.request, TOKEN_REFRESH_UNSUPPORTED);
      RequestsSnoc(Select(TokenRefreshes, source), e);
      FailedSnoc(b.failed, f, TOKEN_REFRESH_UNSUPPORTED);
      FailedSnoc(b.failed, f, EVENT_QUEUE_FULL);
    }
  }

  lemma {:induction false} FailedDrop(b: Books, e: Event, source: seq<Event>)
    requires FailedOk(b, source)
    ensures FailedOk(Dropped(b, e), source)
  {
    assert Drops(b.log) + (b.pending + [e]) == (Drops(b.log) + b.pending) + [e];
    RequestsSnoc(Drops(b.log) + b.pending, e);
    if e.Request? {
      var f := Failure(e.request, EVENT_QUEUE_FULL);
      FailedSnoc(b.failed, f, TOKEN_REFRESH_UNSUPPORTED);
      FailedSnoc(b.failed, f, EVENT_QUEUE_FULL);
    } else {
      assert b.failed + [] == b.failed;
    }
  }

  lemma {:induction false} FailedFlush(b: Books, source: seq<Event>)
    requires FailedOk(b, source)
    ensures FailedOk(Flushed(b), source)
  {
    Snoc(b.log, Gap(b.pending));
    assert Drops(b.log + [Gap(b.pending)]) + [] == Drops(b.log) + b.pending;
  }

  lemma {:induction false} FailedQueue(b: Books, e: Event, source: seq<Event>)
    requires FailedOk(b, source)
    ensures FailedOk(Queued(b, e), source)
  {
    Snoc(b.log, Delivered(e));
    assert Drops(b.log + [Delivered(e)]) == Drops(b.log);
  }

  // ----- what true books say

  /** The lossless tier of the source is the lossless tier of what the consumer can read,
      then of what is in hand or lost. */
  lemma {:induction false} LosslessAccount(b: Books, hand: seq<Event>, source: seq<Event>)
    requires StreamOk(b, hand, source)
    ensures Select(Lossless, Wire(b.log)) + Select(Lossless, hand + b.lost) == Select(Lossless, source)
  {
    LosslessKept(b.log);
    ForwardableLossless(source);
    LosslessOfParts(Expanded(b.log), b.pending, hand, b.lost);
  }

  lemma {:induction false} LosslessOfParts(x: seq<Event>, pending: seq<Event>, hand: seq<Event>, lost: seq<Event>)
    requires forall e :: e in pending ==> !RequiresDelivery(e)
    ensures Select(Lossless, x + pending + hand + lost) == Select(Lossless, x) + Select(Lossless, hand + lost)
  {
    SelectNone(Lossless, pending);
    SelectAppend(Lossless, x, pending);
    SelectAppend(Lossless, x + pending, hand + lost);
    assert x + pending + hand + lost == (x + pending) + (hand + lost);
  }

  lemma {:induction false} ForwardableLossless(source: seq<Event>)
    ensures Select(Lossless, Select(Forwardable, source)) == Select(Lossless, source)
  {
    if source != [] {
      var init, e := source[..|source| - 1], source[|source| - 1];
      ForwardableLossless(init);
      assert source == init + [e];
      SelectSnoc(Forwardable, init, e);
      SelectSnoc(Lossless, init, e);
      SelectSnoc(Lossless, Select(Forwardable, init), e);
    }
  }

  function AllFailed(failed: seq<Failure>): (r: seq<ServerRequest>) {
    if failed == [] then [] else AllFailed(failed[..|failed| - 1]) + [failed[|failed| - 1].request]
  }

  lemma {:induction false} FailedByCode(failed: seq<Failure>)
    requires forall f :: f in failed ==> f.code == TOKEN_REFRESH_UNSUPPORTED || f.code == EVENT_QUEUE_FULL
    ensures multiset(AllFailed(failed)) ==
            multiset(FailedWith(failed, TOKEN_REFRESH_UNSUPPORTED)) + multiset(FailedWith(failed, EVENT_QUEUE_FULL))
  {
    if failed != [] {
      FailedByCode(failed[..|failed| - 1]);
    }
  }

  lemma {:induction false} SplitStream(source: seq<Event>)
    ensures multiset(source) == multiset(Select(TokenRefreshes, source)) + multiset(Select(Forwardable, source))
  {
    if source != [] {
      assert source == source[..|source| - 1] + [source[|source| - 1]];
      SplitStream(source[..|source| - 1]);
    }
  }

  lemma {:induction false} StreamElements(b: Books, hand: seq<Event>, source: seq<Event>)
    requires StreamOk(b, hand, source)
    ensures multiset(source) == multiset(Select(TokenRefreshes, source)) + multiset(Deliveries(b.log)) +
                                multiset(Drops(b.log) + b.pending) + multiset(hand + b.lost)
  {
    SplitStream(source);
    DeliveredOrDropped(b.log);
    assert multiset(Drops(b.log) + b.pending) == multiset(Drops(b.log)) + multiset(b.pending);
  }

  /** Each request of the source, counted, is one the consumer can read, one failed, or one
      in hand or lost. */
  lemma {:induction false} RequestAccount(b: Books, hand: seq<Event>, source: seq<Event>, r: ServerRequest)
    requires StreamOk(b, hand, source) && FailedOk(b, source)
    ensures multiset(Requests(source))[r] ==
            multiset(Requests(Wire(b.log)))[r] + multiset(AllFailed(b.failed))[r] + multiset(Requests(hand + b.lost))[r]
  {
    StreamElements(b, hand, source);
    RequestsByElements(source, r);
    RequestsByElements(Select(TokenRefreshes, source), r);
    RequestsByElements(Drops(b.log) + b.pending, r);
    RequestsByElements(Deliveries(b.log), r);
    RequestsByElements(hand + b.lost, r);
    WireRequests(b.log);
    FailedByCode(b.failed);
  }

  lemma {:induction false} WireForwardable(log: seq<Entry>, e: Event)
    requires e in Wire(log) && forall x :: x in Expanded(log) ==> !IsTokenRefresh(x)
    ensures !IsTokenRefresh(e)
  {
    var init, x := log[..|log| - 1], log[|log| - 1];
    assert forall y :: y in Expanded(init) ==> y in Expanded(log);
    if e in Wire(init) {
      WireForwardable(init, e);
    } else if x.Delivered? {
      assert e in Expanded(log);
    }
  }
}
