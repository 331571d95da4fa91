/** The analytics client's bounded dedupe sets and its batching of events for sending. */
module AnalyticsClient {
  import opened Basics

  const DEDUPE_MAX_KEYS: nat := 4096

  // ----- dedupe

  /** The set after a call for `key`; a full set is emptied first. */
  function Emitted<K(==)>(emitted: set<K>, key: K): set<K> {
    (if |emitted| >= DEDUPE_MAX_KEYS then {} else emitted) + {key}
  }

  predicate Admits<K(==)>(emitted: set<K>, key: K) {
    |emitted| >= DEDUPE_MAX_KEYS || key !in emitted
  }

  class AnalyticsEventsQueue {
    var appUsedEmittedKeys: set<(string, string)>
    var pluginUsedEmittedKeys: set<(string, string)>

    method ShouldEnqueueAppUsed(turnId: string, connectorId: Option<string>) returns (enqueue: bool)
      modifies this`appUsedEmittedKeys
      ensures connectorId.None? ==> enqueue && appUsedEmittedKeys == old(appUsedEmittedKeys)
      ensures connectorId.Some? ==>
        var key := (turnId, connectorId.value);
        enqueue == Admits(old(appUsedEmittedKeys), key) && appUsedEmittedKeys == Emitted(old(appUsedEmittedKeys), key)
    {
      if connectorId.None? {
        return true;
      }
      if |appUsedEmittedKeys| >= DEDUPE_MAX_KEYS {
        appUsedEmittedKeys := {};
      }
      enqueue := (turnId, connectorId.value) !in appUsedEmittedKeys;
      appUsedEmittedKeys := appUsedEmittedKeys + {(turnId, connectorId.value)};
    }

    method ShouldEnqueuePluginUsed(turnId: string, pluginKey: string) returns (enqueue: bool)
      modifies this`pluginUsedEmittedKeys
      ensures enqueue == Admits(old(pluginUsedEmittedKeys), (turnId, pluginKey))
      ensures pluginUsedEmittedKeys == Emitted(old(pluginUsedEmittedKeys), (turnId, pluginKey))
    {
      if |pluginUsedEmittedKeys| >= DEDUPE_MAX_KEYS {
        pluginUsedEmittedKeys := {};
      }
      enqueue := (turnId, pluginKey) !in pluginUsedEmittedKeys;
      pluginUsedEmittedKeys := pluginUsedEmittedKeys + {(turnId, pluginKey)};
    }
  }

  /** The set after a run of keyed calls, starting empty. */
  function EmittedAfter<K(==)>(calls: seq<K>): set<K> {
    if calls == [] then {} else Emitted(EmittedAfter(calls[..|calls| - 1]), calls[|calls| - 1])
  }

  /** The keys of the calls that were admitted, in order. */
  function Admitted<K(==)>(calls: seq<K>): seq<K> {
    if calls == [] then []
    else
      var before, key := calls[..|calls| - 1], calls[|calls| - 1];
      Admitted(before) + (if Admits(EmittedAfter(before), key) then [key] else [])
  }

  function Count<K(==)>(s: seq<K>, key: K): nat {
    if s == [] then 0 else Count(s[..|s| - 1], key) + (if s[|s| - 1] == key then 1 else 0)
  }

  /** Full epochs behind the current set. */
  function Epochs(admitted: nat, held: nat): nat {
    if admitted < held then 0 else (admitted - held) / DEDUPE_MAX_KEYS
  }

  lemma {:induction false} GrowSet<K>(s: set<K>, key: K)
    ensures key !in s ==> |s + {key}| == |s| + 1
    ensures key in s ==> s + {key} == s
  {
  }

  /** `n` calls admitted, `held` keys in the set, one key admitted `count` times and a
      `member` of the set or not: the set holds what was admitted since it was last emptied,
      every epoch before admitted a full set's worth, and none admitted the key twice. */
  predicate Account(n: nat, held: nat, count: nat, member: bool) {
    && held <= DEDUPE_MAX_KEYS && held <= n && (n - held) % DEDUPE_MAX_KEYS == 0
    && (n > 0 ==> held > 0)
    && count <= Epochs(n, held) + (if member then 1 else 0)
  }

  lemma {:induction false} EpochEnds(n: nat, held: nat, count: nat, member: bool, same: bool)
    requires Account(n, held, count, member) && held == DEDUPE_MAX_KEYS
    ensures Account(n + 1, 1, if same then count + 1 else count, same)
  {
    assert n == Epochs(n, held) * DEDUPE_MAX_KEYS + held;
  }

  lemma {:induction false} EpochGoesOn(n: nat, held: nat, count: nat, member: bool, same: bool)
    requires Account(n, held, count, member) && held < DEDUPE_MAX_KEYS && !(same && member)
    ensures Account(n + 1, held + 1, if same then count + 1 else count, same || member)
  {
  }

  lemma {:induction false} EpochAccount<K>(calls: seq<K>, key: K)
    ensures Account(|Admitted(calls)|, |EmittedAfter(calls)|, Count(Admitted(calls), key), key in EmittedAfter(calls))
  {
    if calls != [] {
      var before, call := calls[..|calls| - 1], calls[|calls| - 1];
      EpochAccount(before, key);
      var emitted, admitted := EmittedAfter(before), Admitted(before);
      var n, count := |admitted|, Count(admitted, key);
      CountSnoc(admitted, call, key);
      GrowSet(emitted, call);
      if |emitted| >= DEDUPE_MAX_KEYS {
        EpochEnds(n, |emitted|, count, key in emitted, call == key);
        assert EmittedAfter(calls) == {call} && Admitted(calls) == admitted + [call];
      } else if call !in emitted {
        EpochGoesOn(n, |emitted|, count, key in emitted, call == key);
        assert EmittedAfter(calls) == emitted + {call} && Admitted(calls) == admitted + [call];
      } else {
        assert EmittedAfter(calls) == emitted && Admitted(calls) == admitted;
      }
    }
  }

  lemma {:induction false} CountSnoc<K>(s: seq<K>, x: K, key: K)
    ensures Count(s + [x], key) == Count(s, key) + (if x == key then 1 else 0)
  {
    assert (s + [x])[..|s + [x]| - 1] == s;
  }

  /** The set never outgrows its bound, and when N calls have been admitted no key was
      admitted more than ceil(N / 4096) times. */
  lemma {:induction false} BoundedDedupe<K>(calls: seq<K>, key: K)
    ensures |EmittedAfter(calls)| <= DEDUPE_MAX_KEYS
    ensures Count(Admitted(calls), key) <= (|Admitted(calls)| + DEDUPE_MAX_KEYS - 1) / DEDUPE_MAX_KEYS
  {
    EpochAccount(calls, key);
    var held, n := |EmittedAfter(calls)|, |Admitted(calls)|;
    if n > 0 {
      assert n == Epochs(n, held) * DEDUPE_MAX_KEYS + held;
      assert key in EmittedAfter(calls) ==> held > 0;
      assert (n + DEDUPE_MAX_KEYS - 1) / DEDUPE_MAX_KEYS == Epochs(n, held) + 1;
    } else {
      assert Admitted(calls) == [];
    }
  }

  // ----- batching

  /** What batching needs of an event: whether it must be sent on its own. */
  datatype TrackEvent = Ordinary(payload: nat) | AcceptedLineFingerprints(payload: nat)

  predicate Isolated(e: TrackEvent) {
    e.AcceptedLineFingerprints?
  }

  function Flatten(batches: seq<seq<TrackEvent>>): seq<TrackEvent> {
    if batches == [] then [] else Flatten(batches[..|batches| - 1]) + batches[|batches| - 1]
  }

  /** A batch that may be sent: not empty, and an isolated event in it is all of it. */
  predicate GoodBatch(b: seq<TrackEvent>) {
    b != [] && forall i :: 0 <= i < |b| && Isolated(b[i]) ==> |b| == 1
  }

  /** `batches` splits `events` in order into good batches, as few as can be: no two
      neighbours could be joined. */
  ghost predicate CoarsestSplit(batches: seq<seq<TrackEvent>>, events: seq<TrackEvent>) {
    && Flatten(batches) == events
    && (forall i :: 0 <= i < |batches| ==> GoodBatch(batches[i]))
    && (forall i :: 0 <= i < |batches| - 1 ==> Isolated(batches[i][0]) || Isolated(batches[i + 1][0]))
  }

  /** Finished batches that split `done`, the last of them isolated, and an ordinary batch
      still growing. */
  ghost predicate Batching(batches: seq<seq<TrackEvent>>, current: seq<TrackEvent>, done: seq<TrackEvent>) {
    && CoarsestSplit(batches, done)
    && (batches != [] ==> Isolated(batches[|batches| - 1][0]))
    && (forall i :: 0 <= i < |current| ==> !Isolated(current[i]))
  }

  lemma {:induction false} BatchIsolated(batches: seq<seq<TrackEvent>>, current: seq<TrackEvent>,
                                         done: seq<TrackEvent>, event: TrackEvent)
    requires Batching(batches, current, done) && Isolated(event)
    ensures current == [] ==> Batching(batches + [[event]], [], done + [event])
    ensures current != [] ==> Batching(batches + [current] + [[event]], [], done + current + [event])
  {
    if current == [] {
      SplitGrows(batches, done, [event]);
    } else {
      SplitGrows(batches, done, current);
      SplitGrows(batches + [current], done + current, [event]);
    }
  }

  method TrackEventRequestBatches(events: seq<TrackEvent>) returns (batches: seq<seq<TrackEvent>>)
    ensures CoarsestSplit(batches, events)
  {
    batches := [];
    var current: seq<TrackEvent> := [];
    ghost var done: seq<TrackEvent> := [];
    for k := 0 to |events|
      invariant Batching(batches, current, done)
      invariant done + current == events[..k]
    {
      var event := events[k];
      assert events[..k + 1] == events[..k] + [event];
      if Isolated(event) {
        BatchIsolated(batches, current, done, event);
        if current != [] {
          batches, done := batches + [current], done + current;
          current := [];
        }
        batches, done := batches + [[event]], done + [event];
      } else {
        current := current + [event];
      }
    }
    assert events[..|events|] == events;
    if current != [] {
      SplitGrows(batches, done, current);
      batches := batches + [current];
    }
  }

  lemma {:induction false} SplitGrows(batches: seq<seq<TrackEvent>>, done: seq<TrackEvent>, b: seq<TrackEvent>)
    requires CoarsestSplit(batches, done) && GoodBatch(b)
    requires batches != [] ==> Isolated(batches[|batches| - 1][0]) || Isolated(b[0])
    ensures CoarsestSplit(batches + [b], done + b)
  {
    FlattenSnoc(batches, b);
  }

  lemma {:induction false} FlattenSnoc(batches: seq<seq<TrackEvent>>, b: seq<TrackEvent>)
    ensures Flatten(batches + [b]) == Flatten(batches) + b
  {
    assert (batches + [b])[..|batches + [b]| - 1] == batches;
  }

  lemma {:induction false} FlattenEmpty(batches: seq<seq<TrackEvent>>)
    requires (forall i :: 0 <= i < |batches| ==> batches[i] != []) && Flatten(batches) == []
    ensures batches == []
  {
  }

  /** Where the last batch of a coarsest split starts: an isolated event is alone, and an
      ordinary batch reaches back to the start or to an isolated event. */
  lemma {:induction false} LastBatchStarts(a: seq<seq<TrackEvent>>, events: seq<TrackEvent>)
    requires CoarsestSplit(a, events) && a != []
    ensures var x := a[|a| - 1];
            && 0 < |x| <= |events| && events[|events| - |x|..] == x
            && (Isolated(events[|events| - 1]) ==> |x| == 1)
            && (!Isolated(events[|events| - 1]) && |x| < |events| ==> Isolated(events[|events| - |x| - 1]))
  {
    var x, rest := a[|a| - 1], a[..|a| - 1];
    assert events == Flatten(rest) + x;
    assert events[|events| - 1] == x[|x| - 1];
    if |x| < |events| {
      var w := rest[|rest| - 1];
      assert w == a[|a| - 2];
      assert Flatten(rest)[|Flatten(rest)| - 1] == w[|w| - 1];
    }
  }

  lemma {:induction false} LastBatchForced(a: seq<seq<TrackEvent>>, b: seq<seq<TrackEvent>>, events: seq<TrackEvent>)
    requires CoarsestSplit(a, events) && CoarsestSplit(b, events) && a != [] && b != []
    ensures |b[|b| - 1]| <= |a[|a| - 1]|
  {
    LastBatchStarts(a, events);
    LastBatchStarts(b, events);
    var y := b[|b| - 1];
    assert forall i :: |events| - |y| <= i < |events| ==> events[i] == y[i - (|events| - |y|)];
  }

  /** There is only one coarsest split. */
  lemma {:induction false} CoarsestSplitUnique(a: seq<seq<TrackEvent>>, b: seq<seq<TrackEvent>>,
                                               events: seq<TrackEvent>)
    requires CoarsestSplit(a, events) && CoarsestSplit(b, events)
    ensures a == b
    decreases |a|
  {
    if a == [] || b == [] {
      if a != [] { FlattenEmpty(a); }
      if b != [] { FlattenEmpty(b); }
    } else {
      LastBatchForced(a, b, events);
      LastBatchForced(b, a, events);
      var x, y := a[|a| - 1], b[|b| - 1];
      var rest := events[..|events| - |x|];
      assert Flatten(a[..|a| - 1]) == rest && Flatten(b[..|b| - 1]) == rest && x == y == events[|events| - |x|..];
      CoarsestSplitUnique(a[..|a| - 1], b[..|b| - 1], rest);
      assert a == a[..|a| - 1] + [x] && b == b[..|b| - 1] + [y];
    }
  }
}
