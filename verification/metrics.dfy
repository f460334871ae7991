/**
 * The metric series store (`MetricsCollector`): a map from container id to the samples
 * collected for it. A collection tick appends a sample to an EXISTING series and then prunes
 * that series to the retention horizon; `collect_container_metrics` creates series on demand
 * and does not prune. Clock readings and the outcome of each Docker query are parameters.
 */
module Metrics {
  import opened Wrappers
  import opened Text

  datatype GpuMetrics = GpuMetrics(
    utilizationPercent: real, memoryUsedMb: nat, memoryTotalMb: nat,
    temperatureCelsius: int, powerUsageWatts: real)

  /** One sample; `timestamp` is in seconds since the Unix epoch. */
  datatype ResourceMetrics = ResourceMetrics(
    timestamp: nat, cpuUsagePercent: real, memoryUsageMb: nat, memoryTotalMb: nat,
    gpuMetrics: Option<GpuMetrics>)

  type Store = map<string, seq<ResourceMetrics>>

  /** `retention_hours * 3600` in u64 arithmetic. */
  function RetentionSecs(retentionHours: nat): nat {
    (retentionHours * 3600) % U64_BOUND
  }

  /** `current_time - m.timestamp` in u64 arithmetic: it wraps around for a sample stamped after `now`. */
  function Age(now: nat, timestamp: nat): nat {
    (now - timestamp) % U64_BOUND
  }

  /** The `retain` condition of `cleanup_old_metrics`; the comparison is strict. */
  predicate Retained(m: ResourceMetrics, now: nat, retentionHours: nat) {
    Age(now, m.timestamp) < RetentionSecs(retentionHours)
  }

  /** The samples `retain` keeps, in their original order. */
  function Prune(samples: seq<ResourceMetrics>, now: nat, retentionHours: nat): seq<ResourceMetrics> {
    if samples == [] then []
    else
      var last := samples[|samples| - 1];
      Prune(samples[..|samples| - 1], now, retentionHours)
        + (if Retained(last, now, retentionHours) then [last] else [])
  }

  // ---------------------------------------------------------------------------------------
  // Pruning

  /** For a sample not stamped in the future, it is kept exactly when it is younger than the horizon. */
  lemma RetainedPastSample(m: ResourceMetrics, now: nat, retentionHours: nat)
    requires m.timestamp <= now < U64_BOUND
    ensures Retained(m, now, retentionHours) <==> now - m.timestamp < RetentionSecs(retentionHours)
  {
  }

  /** A sample whose age equals the horizon exactly is dropped. */
  lemma BoundaryDropped(m: ResourceMetrics, now: nat, retentionHours: nat)
    requires m.timestamp <= now < U64_BOUND
    requires now - m.timestamp == RetentionSecs(retentionHours)
    ensures !Retained(m, now, retentionHours)
  {
  }

  /** A sample stamped after `now` gets an age near 2^64 from the wrapping subtraction. */
  lemma FutureSampleAge(m: ResourceMetrics, now: nat)
    requires now < m.timestamp < U64_BOUND
    ensures Age(now, m.timestamp) == U64_BOUND - (m.timestamp - now)
  {
  }

  /** Pruning keeps exactly the samples that meet the retention condition. */
  lemma {:induction false} PruneMembers(samples: seq<ResourceMetrics>, now: nat, retentionHours: nat, m: ResourceMetrics)
    ensures m in Prune(samples, now, retentionHours) <==> m in samples && Retained(m, now, retentionHours)
  {
    if samples != [] {
      var init := samples[..|samples| - 1];
      PruneMembers(init, now, retentionHours, m);
      assert samples == init + [samples[|samples| - 1]];
    }
  }

  /** Pruning a concatenation prunes each part in place: relative order is kept. */
  lemma {:induction false} PruneConcat(a: seq<ResourceMetrics>, b: seq<ResourceMetrics>, now: nat, retentionHours: nat)
    ensures Prune(a + b, now, retentionHours) == Prune(a, now, retentionHours) + Prune(b, now, retentionHours)
    decreases |b|
  {
    if b == [] {
      assert a + b == a;
    } else {
      var init := b[..|b| - 1];
      PruneConcat(a, init, now, retentionHours);
      assert (a + b)[..|a + b| - 1] == a + init;
    }
  }

  /** Pruning never adds a sample: the result is a sub-multiset of the input. */
  lemma {:induction false} PruneShrinks(samples: seq<ResourceMetrics>, now: nat, retentionHours: nat)
    ensures multiset(Prune(samples, now, retentionHours)) <= multiset(samples)
  {
    if samples != [] {
      var init := samples[..|samples| - 1];
      PruneShrinks(init, now, retentionHours);
      assert samples == init + [samples[|samples| - 1]];
    }
  }

  /** For a fixed `now`, pruning twice is pruning once. */
  lemma {:induction false} PruneIdempotent(samples: seq<ResourceMetrics>, now: nat, retentionHours: nat)
    ensures Prune(Prune(samples, now, retentionHours), now, retentionHours) == Prune(samples, now, retentionHours)
  {
    if samples != [] {
      var init := samples[..|samples| - 1];
      var last := samples[|samples| - 1];
      PruneIdempotent(init, now, retentionHours);
      var tail := if Retained(last, now, retentionHours) then [last] else [];
      PruneConcat(Prune(init, now, retentionHours), tail, now, retentionHours);
    }
  }

  /** `cleanup_old_metrics`: the `retain` pass over a series. */
  method CleanupOldMetrics(metrics: seq<ResourceMetrics>, retentionHours: nat, now: nat) returns (kept: seq<ResourceMetrics>)
    ensures kept == Prune(metrics, now, retentionHours)
    ensures forall m :: m in kept <==> m in metrics && Retained(m, now, retentionHours)
  {
    var retentionSecs := (retentionHours * 3600) % U64_BOUND;
    kept := [];
    var i := 0;
    while i < |metrics|
      invariant 0 <= i <= |metrics|
      invariant kept == Prune(metrics[..i], now, retentionHours)
    {
      var m := metrics[i];
      if (now - m.timestamp) % U64_BOUND < retentionSecs {
        kept := kept + [m];
      }
      assert metrics[..i + 1][..i] == metrics[..i];
      i := i + 1;
    }
    assert metrics[..i] == metrics;
    forall m ensures m in kept <==> m in metrics && Retained(m, now, retentionHours) {
      PruneMembers(metrics, now, retentionHours, m);
    }
  }

  // ---------------------------------------------------------------------------------------
  // The collection tick and collect_container_metrics, as functions of the store

  /**
   * The body of one collection tick for `containerId`: a failed collection (`None`) or a
   * container without an entry leaves the store alone; otherwise the sample is appended
   * and that series is pruned.
   */
  function TickIn(store: Store, containerId: string, collected: Option<ResourceMetrics>, retentionHours: nat, now: nat): Store {
    if collected.Some? && containerId in store then
      store[containerId := Prune(store[containerId] + [collected.value], now, retentionHours)]
    else store
  }

  /**
   * A tick changes at most the ticking container's series: the old samples that survive
   * pruning, followed by the new sample if it survives too. No entry is ever created.
   */
  lemma TickCharacterised(store: Store, containerId: string, collected: Option<ResourceMetrics>, retentionHours: nat, now: nat)
    ensures var after := TickIn(store, containerId, collected, retentionHours, now);
      && after.Keys == store.Keys
      && (forall id :: id in store && id != containerId ==> after[id] == store[id])
      && (collected.None? || containerId !in store ==> after == store)
      && (collected.Some? && containerId in store ==>
            after[containerId] == Prune(store[containerId], now, retentionHours)
              + (if Retained(collected.value, now, retentionHours) then [collected.value] else []))
  {
    if collected.Some? && containerId in store {
      PruneConcat(store[containerId], [collected.value], now, retentionHours);
      assert Prune([collected.value], now, retentionHours)
          == (if Retained(collected.value, now, retentionHours) then [collected.value] else []);
    }
  }

  /** One container reported by `list_containers`, with what collecting its sample yields. */
  datatype Listed = Listed(containerId: string, collected: Option<ResourceMetrics>)

  datatype CollectError = ListFailed | CollectFailed(containerId: string)

  /** `entry(id).or_default().push(m)`. */
  function Append(store: Store, containerId: string, m: ResourceMetrics): Store {
    store[containerId := (if containerId in store then store[containerId] else []) + [m]]
  }

  /** The loop of `collect_container_metrics`: stops at the first failed collection, keeping what it appended. */
  function CollectIn(store: Store, listed: seq<Listed>): (Outcome<CollectError>, Store)
    decreases |listed|
  {
    if listed == [] then (Pass, store)
    else if listed[0].collected.None? then (Fail(CollectFailed(listed[0].containerId)), store)
    else CollectIn(Append(store, listed[0].containerId, listed[0].collected.value), listed[1..])
  }

  /** The samples `listed` yields for `containerId`, in listing order. */
  function SamplesFor(listed: seq<Listed>, containerId: string): seq<ResourceMetrics> {
    if listed == [] then []
    else
      (if listed[0].containerId == containerId && listed[0].collected.Some? then [listed[0].collected.value] else [])
        + SamplesFor(listed[1..], containerId)
  }

  predicate AllCollected(listed: seq<Listed>) {
    forall k :: 0 <= k < |listed| ==> listed[k].collected.Some?
  }

  function Series(store: Store, containerId: string): seq<ResourceMetrics> {
    if containerId in store then store[containerId] else []
  }

  /**
   * When every listed container yields a sample, each container's series grows by exactly
   * its samples in listing order (an entry created if needed), and unlisted containers are untouched.
   */
  lemma {:induction false} CollectAppendsEach(store: Store, listed: seq<Listed>, containerId: string)
    requires AllCollected(listed)
    decreases |listed|
    ensures var (r, after) := CollectIn(store, listed);
      && r.Pass?
      && (containerId in after <==> containerId in store || exists k :: 0 <= k < |listed| && listed[k].containerId == containerId)
      && Series(after, containerId) == Series(store, containerId) + SamplesFor(listed, containerId)
  {
    if listed != [] {
      var first, rest := listed[0], listed[1..];
      var next := Append(store, first.containerId, first.collected.value);
      var own := if first.containerId == containerId then [first.collected.value] else [];
      assert AllCollected(rest) by {
        assert forall k :: 0 <= k < |rest| ==> rest[k] == listed[k + 1];
      }
      CollectAppendsEach(next, rest, containerId);
      SeriesAfterAppend(store, first.containerId, first.collected.value, containerId);
      MentionsCons(listed, containerId);
      assert SamplesFor(listed, containerId) == own + SamplesFor(rest, containerId);
      SamplesAssoc(Series(store, containerId), own, SamplesFor(rest, containerId));
    }
  }

  lemma SeriesAfterAppend(store: Store, appended: string, m: ResourceMetrics, containerId: string)
    ensures Series(Append(store, appended, m), containerId)
         == Series(store, containerId) + (if appended == containerId then [m] else [])
    ensures containerId in Append(store, appended, m) <==> containerId in store || appended == containerId
  {
  }

  lemma MentionsCons(listed: seq<Listed>, containerId: string)
    requires listed != []
    ensures (exists k :: 0 <= k < |listed| && listed[k].containerId == containerId)
        <==> listed[0].containerId == containerId
             || exists k :: 0 <= k < |listed[1..]| && listed[1..][k].containerId == containerId
  {
    if exists k :: 0 <= k < |listed[1..]| && listed[1..][k].containerId == containerId {
      var k :| 0 <= k < |listed[1..]| && listed[1..][k].containerId == containerId;
      assert listed[k + 1].containerId == containerId;
    }
    if exists k :: 0 <= k < |listed| && listed[k].containerId == containerId {
      var k :| 0 <= k < |listed| && listed[k].containerId == containerId;
      if k > 0 {
        assert listed[1..][k - 1].containerId == containerId;
      }
    }
  }

  lemma SamplesAssoc(a: seq<ResourceMetrics>, b: seq<ResourceMetrics>, c: seq<ResourceMetrics>)
    ensures (a + b) + c == a + (b + c)
  {
  }

  /** If the collection for the `k`-th container fails, the samples appended for the earlier ones remain and the rest are skipped. */
  lemma {:induction false} CollectKeepsEarlierOnFailure(store: Store, listed: seq<Listed>, k: nat)
    requires k < |listed| && AllCollected(listed[..k]) && listed[k].collected.None?
    ensures CollectIn(store, listed) == (Fail(CollectFailed(listed[k].containerId)), CollectIn(store, listed[..k]).1)
    decreases k
  {
    if k > 0 {
      assert listed[..k][1..] == listed[1..][..k - 1];
      CollectKeepsEarlierOnFailure(Append(store, listed[0].containerId, listed[0].collected.value), listed[1..], k - 1);
    }
  }

  // ---------------------------------------------------------------------------------------
  // The collector object

  class MetricsCollector {
    var containerMetrics: Store
    var collectionInterval: nat
    var historyRetentionHours: nat

    /** `MetricsCollector::new`: an empty store with the given interval (seconds) and retention (hours). */
    constructor (intervalSecs: nat, retentionHours: nat)
      ensures containerMetrics == map[]
      ensures collectionInterval == intervalSecs && historyRetentionHours == retentionHours
    {
      containerMetrics := map[];
      collectionInterval := intervalSecs;
      historyRetentionHours := retentionHours;
    }

    /** One tick of the task `start_collection` spawns for `containerId`; `now` is the clock reading `cleanup_old_metrics` takes. */
    method Tick(containerId: string, collected: Option<ResourceMetrics>, now: nat)
      modifies this
      ensures containerMetrics == TickIn(old(containerMetrics), containerId, collected, historyRetentionHours, now)
      ensures collectionInterval == old(collectionInterval) && historyRetentionHours == old(historyRetentionHours)
    {
      if collected.Some? && containerId in containerMetrics {
        var kept := CleanupOldMetrics(containerMetrics[containerId] + [collected.value], historyRetentionHours, now);
        containerMetrics := containerMetrics[containerId := kept];
      }
    }

    /** `get_metrics`: a copy of the series, or an error naming the container. */
    method GetMetrics(containerId: string) returns (r: Result<seq<ResourceMetrics>, string>)
      ensures r.Ok? <==> containerId in containerMetrics
      ensures r.Ok? ==> r.value == containerMetrics[containerId]
      ensures r.Err? ==> r.error == "No metrics found for container " + containerId
    {
      if containerId in containerMetrics {
        r := Ok(containerMetrics[containerId]);
      } else {
        r := Err("No metrics found for container " + containerId);
      }
    }

    /** `collect_container_metrics`: `listing` is `None` when listing the containers fails. */
    method CollectContainerMetrics(listing: Option<seq<Listed>>) returns (r: Outcome<CollectError>)
      modifies this
      ensures listing.None? ==> r == Fail(ListFailed) && containerMetrics == old(containerMetrics)
      ensures listing.Some? ==> (r, containerMetrics) == CollectIn(old(containerMetrics), listing.value)
      ensures collectionInterval == old(collectionInterval) && historyRetentionHours == old(historyRetentionHours)
    {
      if listing.None? {
        return Fail(ListFailed);
      }
      var listed := listing.value;
      var i := 0;
      while i < |listed|
        invariant 0 <= i <= |listed|
        invariant CollectIn(containerMetrics, listed[i..]) == CollectIn(old(containerMetrics), listed)
        invariant collectionInterval == old(collectionInterval) && historyRetentionHours == old(historyRetentionHours)
      {
        var item := listed[i];
        if item.collected.None? {
          return Fail(CollectFailed(item.containerId));
        }
        var series := if item.containerId in containerMetrics then containerMetrics[item.containerId] else [];
        containerMetrics := containerMetrics[item.containerId := series + [item.collected.value]];
        assert listed[i..][1..] == listed[i + 1..];
        i := i + 1;
      }
      r := Pass;
    }

    /** `get_container_metrics`: the same lookup as `get_metrics`, with a message that omits the id. */
    method GetContainerMetrics(containerId: string) returns (r: Result<seq<ResourceMetrics>, string>)
      ensures r.Ok? <==> containerId in containerMetrics
      ensures r.Ok? ==> r.value == containerMetrics[containerId]
      ensures r.Err? ==> r.error == "No metrics found for container"
    {
      if containerId in containerMetrics {
        r := Ok(containerMetrics[containerId]);
      } else {
        r := Err("No metrics found for container");
      }
    }
  }
}
