/**
 Request batching and the bounded de-duplication of usage events (codex-rs/analytics/src/client.rs).
*/
module AnalyticsClient {
  import opened Common
  import opened AnalyticsFacts

  // ---------------------------------------------------------------- batching

  /** `should_send_in_isolated_request`. */
  predicate Isolated(e: Event) {
    e.AcceptedLinesEvent?
  }

  function Flatten(batches: seq<seq<Event>>): seq<Event> {
    if batches == [] then [] else batches[0] + Flatten(batches[1..])
  }

  /** A batch holds one event of accepted lines, or any positive number of other events. */
  predicate ValidBatch(batch: seq<Event>) {
    batch != [] && (|batch| > 1 ==> forall i | 0 <= i < |batch| :: !batch[i].AcceptedLinesEvent?)
  }

  predicate Splits(batches: seq<seq<Event>>, events: seq<Event>) {
    Flatten(batches) == events && forall i | 0 <= i < |batches| :: ValidBatch(batches[i])
  }

  /** Two neighbouring batches are apart only because one of them reports accepted lines. */
  predicate Tight(batches: seq<seq<Event>>)
    requires forall i | 0 <= i < |batches| :: batches[i] != []
  {
    forall i | 0 <= i < |batches| - 1 ::
      batches[i][0].AcceptedLinesEvent? || batches[i + 1][0].AcceptedLinesEvent?
  }

  lemma {:induction false} FlattenConcat(a: seq<seq<Event>>, b: seq<seq<Event>>)
    ensures Flatten(a + b) == Flatten(a) + Flatten(b)
  {
    if a == [] {
      assert a + b == b;
    } else {
      assert (a + b)[0] == a[0] && (a + b)[1..] == a[1..] + b;
      FlattenConcat(a[1..], b);
    }
  }

  lemma PushBatch(batches: seq<seq<Event>>, done: seq<Event>, batch: seq<Event>)
    requires Splits(batches, done) && Tight(batches) && ValidBatch(batch)
    requires batches == [] || Isolated(batches[|batches| - 1][0]) || Isolated(batch[0])
    ensures Splits(batches + [batch], done + batch) && Tight(batches + [batch])
  {
    FlattenConcat(batches, [batch]);
    assert Flatten([batch]) == batch + Flatten([]);
  }

  method TrackEventRequestBatches(events: seq<Event>) returns (batches: seq<seq<Event>>)
    ensures Splits(batches, events) && Tight(batches)
  {
    batches := [];
    var current: seq<Event> := [];
    ghost var done: seq<Event> := [];
    for i := 0 to |events|
      invariant Splits(batches, done) && Tight(batches) && done + current == events[..i]
      invariant forall k | 0 <= k < |current| :: !Isolated(current[k])
      invariant batches != [] ==> Isolated(batches[|batches| - 1][0])
    {
      var event := events[i];
      assert events[..i + 1] == done + current + [event];
      if Isolated(event) {
        if current != [] {
          PushBatch(batches, done, current);
          batches, done := batches + [current], done + current;
          current := [];
        }
        PushBatch(batches, done, [event]);
        batches, done := batches + [[event]], done + [event];
      } else {
        current := current + [event];
      }
    }
    assert events[..|events|] == events;
    if current != [] {
      PushBatch(batches, done, current);
      batches := batches + [current];
    }
  }

  /** A split of all the events but the first. */
  function Peel(batches: seq<seq<Event>>): seq<seq<Event>>
    requires batches != [] && batches[0] != []
  {
    if |batches[0]| == 1 then batches[1..] else [batches[0][1..]] + batches[1..]
  }

  lemma PeelSplits(batches: seq<seq<Event>>, events: seq<Event>)
    requires Splits(batches, events) && events != []
    ensures batches != [] && batches[0][0] == events[0]
    ensures Splits(Peel(batches), events[1..])
    ensures Tight(batches) ==> Tight(Peel(batches))
  {
    assert batches != [];
    assert Flatten(batches) == batches[0] + Flatten(batches[1..]);
    var rest := Peel(batches);
    if |batches[0]| == 1 {
      assert Flatten(rest) == events[1..];
    } else {
      assert rest[0] == batches[0][1..] && rest[1..] == batches[1..];
      assert Flatten(rest) == batches[0][1..] + Flatten(batches[1..]);
      assert Flatten(rest) == events[1..];
    }
  }

  lemma HeadOf(batches: seq<seq<Event>>, events: seq<Event>)
    requires Splits(batches, events) && batches != []
    ensures events != [] && batches[0][0] == events[0]
    ensures forall i | 0 <= i < |batches[0]| :: i < |events| && batches[0][i] == events[i]
  {
    assert Flatten(batches) == batches[0] + Flatten(batches[1..]);
  }

  /** A tight split is the only one with the least number of batches. */
  lemma {:induction false} TightIsLeast(p: seq<seq<Event>>, q: seq<seq<Event>>, events: seq<Event>)
    requires Splits(p, events) && Tight(p) && Splits(q, events)
    ensures |p| <= |q|
    ensures |p| == |q| ==> p == q
    decreases |events|
  {
    if events == [] {
      if p != [] { HeadOf(p, events); }
      if q != [] { HeadOf(q, events); }
    } else {
      PeelSplits(p, events);
      PeelSplits(q, events);
      TightIsLeast(Peel(p), Peel(q), events[1..]);
      SameFirstLength(p, q, events);
      if |p| == |q| {
        assert Peel(p) == Peel(q);
        PeelInjective(p, q);
      }
    }
  }

  /** Where the tight split closes its first batch after one event, every split has to. */
  lemma SameFirstLength(p: seq<seq<Event>>, q: seq<seq<Event>>, events: seq<Event>)
    requires Splits(p, events) && Tight(p) && Splits(q, events) && events != [] && p != [] && q != []
    ensures |p[0]| == 1 ==> |q[0]| == 1
  {
    HeadOf(p, events);
    HeadOf(q, events);
    if |p[0]| == 1 && |q[0]| > 1 {
      PeelSplits(p, events);
      assert Peel(p) == p[1..] && events[1..] != [];
      assert p[1..] != [];
      HeadOf(p[1..], events[1..]);
    }
  }

  lemma PeelInjective(p: seq<seq<Event>>, q: seq<seq<Event>>)
    requires p != [] && q != [] && p[0] != [] && q[0] != [] && p[0][0] == q[0][0] && |p| == |q| && Peel(p) == Peel(q)
    ensures p == q
  {
    assert p == [p[0]] + p[1..] && q == [q[0]] + q[1..];
    if |p[0]| == 1 {
      assert p[0] == [p[0][0]] && q[0] == [q[0][0]];
    } else {
      assert p[0] == [p[0][0]] + Peel(p)[0] && q[0] == [q[0][0]] + Peel(q)[0];
      assert p[1..] == Peel(p)[1..] && q[1..] == Peel(q)[1..];
    }
  }

  // ---------------------------------------------------------------- bounded de-duplication

  const DEDUPE_MAX_KEYS: nat := 4096

  datatype UsageKey = UsageKey(turnId: string, id: string)

  /** The set is emptied on the call that finds it full, even when the key is in it. */
  function Room(emitted: set<UsageKey>): set<UsageKey> {
    if |emitted| >= DEDUPE_MAX_KEYS then {} else emitted
  }

  predicate Accepts(emitted: set<UsageKey>, key: UsageKey) {
    key !in Room(emitted)
  }

  function Emit(emitted: set<UsageKey>, key: UsageKey): set<UsageKey> {
    Room(emitted) + {key}
  }

  class AnalyticsEventsQueue {
    var appUsedEmittedKeys: set<UsageKey>
    var pluginUsedEmittedKeys: set<UsageKey>

    constructor ()
      ensures appUsedEmittedKeys == pluginUsedEmittedKeys == {}
    {
      appUsedEmittedKeys, pluginUsedEmittedKeys := {}, {};
    }

    /** An app without a connector is never de-duplicated. */
    method ShouldEnqueueAppUsed(turnId: string, connectorId: Option<string>) returns (enqueue: bool)
      modifies this`appUsedEmittedKeys
      ensures connectorId.None? ==> enqueue && appUsedEmittedKeys == old(appUsedEmittedKeys)
      ensures connectorId.Some? ==> var key := UsageKey(turnId, connectorId.value);
                enqueue == Accepts(old(appUsedEmittedKeys), key)
                    && appUsedEmittedKeys == Emit(old(appUsedEmittedKeys), key)
    {
      if connectorId.None? {
        return true;
      }
      if |appUsedEmittedKeys| >= DEDUPE_MAX_KEYS {
        appUsedEmittedKeys := {};
      }
      var key := UsageKey(turnId, connectorId.value);
      enqueue := key !in appUsedEmittedKeys;
      appUsedEmittedKeys := appUsedEmittedKeys + {key};
    }

    method ShouldEnqueuePluginUsed(turnId: string, pluginId: string) returns (enqueue: bool)
      modifies this`pluginUsedEmittedKeys
      ensures var key := UsageKey(turnId, pluginId);
                enqueue == Accepts(old(pluginUsedEmittedKeys), key)
                && pluginUsedEmittedKeys == Emit(old(pluginUsedEmittedKeys), key)
    {
      if |pluginUsedEmittedKeys| >= DEDUPE_MAX_KEYS {
        pluginUsedEmittedKeys := {};
      }
      var key := UsageKey(turnId, pluginId);
      enqueue := key !in pluginUsedEmittedKeys;
      pluginUsedEmittedKeys := pluginUsedEmittedKeys + {key};
    }
  }

  // A run is the sequence of keys asked for, oldest first.

  function EmittedAfter(run: seq<UsageKey>): set<UsageKey> {
    if run == [] then {} else Emit(EmittedAfter(run[..|run| - 1]), run[|run| - 1])
  }

  function Acceptances(run: seq<UsageKey>): nat {
    if run == [] then 0
    else
      var before := run[..|run| - 1];
      Acceptances(before) + if Accepts(EmittedAfter(before), run[|run| - 1]) then 1 else 0
  }

  function AcceptancesOf(run: seq<UsageKey>, key: UsageKey): nat {
    if run == [] then 0
    else
      var before := run[..|run| - 1];
      AcceptancesOf(before, key)
      + if run[|run| - 1] == key && Accepts(EmittedAfter(before), key) then 1 else 0
  }

  function Clears(run: seq<UsageKey>): nat {
    if run == [] then 0
    else
      var before := run[..|run| - 1];
      Clears(before) + if |EmittedAfter(before)| == 4096 then 1 else 0
  }

  lemma {:induction false} DedupeInvariant(run: seq<UsageKey>, key: UsageKey)
    ensures |EmittedAfter(run)| <= 4096 && (run != [] ==> EmittedAfter(run) != {})
    ensures Acceptances(run) == 4096 * Clears(run) + |EmittedAfter(run)|
    ensures AcceptancesOf(run, key) <= Clears(run) + if key in EmittedAfter(run) then 1 else 0
    decreases |run|
  {
    if run != [] {
      DedupeInvariant(run[..|run| - 1], key);
    }
  }

  /** The set stays bounded, and among T acceptances one key is accepted at most 1 + (T - 1) / 4096 times. */
  lemma DedupeBound(run: seq<UsageKey>, key: UsageKey)
    requires Acceptances(run) >= 1
    ensures |EmittedAfter(run)| <= 4096
    ensures AcceptancesOf(run, key) <= 1 + (Acceptances(run) - 1) / 4096
  {
    DedupeInvariant(run, key);
  }

  /** Until it first fills up, the set is exact: it holds every key asked for, so each is accepted once. */
  lemma {:induction false} DedupeExactUntilFull(run: seq<UsageKey>, key: UsageKey)
    requires Clears(run) == 0
    ensures key in EmittedAfter(run) <==> key in run
    ensures AcceptancesOf(run, key) == if key in run then 1 else 0
    decreases |run|
  {
    if run != [] {
      var before, last := run[..|run| - 1], run[|run| - 1];
      DedupeExactUntilFull(before, key);
      assert run == before + [last];
    }
  }
}
