/**
 * `IngestionMetricsCollection`: the metrics of each ingestion job keyed by
 * job id, with get-or-create access and two views sorted by start time.
 */
module IngestionMetricsCollections {
  import opened Wrappers
  import opened IngestionOrders
  import S = Sorting
  import opened JobSourceTables
  import opened NetworkMetricsTables

  /** `IngestionMetrics(jobId, metadata, jobSources, networkMetrics)`. */
  datatype IngestionMetrics = IngestionMetrics(jobId: Uuid, metadata: Option<IngestionMetadata>, jobSources: JobSources, networkMetrics: NetworkMetrics)

  /** `it.metadata?.startTime`, the key both sorted views compare. */
  function MetricsStart(metrics: IngestionMetrics): Option<Instant>
  {
    StartTime(metrics.metadata)
  }

  class IngestionMetricsCollection {
    var metricsByUUID: map<Uuid, IngestionMetrics>
    /** The linked order of the `LinkedHashMap`: the job ids in the order they were first added. */
    var insertionOrder: seq<Uuid>

    /** Every entry is stored under its own job id, and the insertion order lists each id once. */
    predicate Valid()
      reads this
    {
      (forall id :: id in metricsByUUID ==> metricsByUUID[id].jobId == id) &&
      Enumerates(insertionOrder, metricsByUUID)
    }

    constructor ()
      ensures metricsByUUID == map[] && insertionOrder == [] && Valid()
    {
      metricsByUUID := map[];
      insertionOrder := [];
    }

    /** `add(metrics)`: stores the entry under its job id, replacing any entry with that id. */
    method Add(metrics: IngestionMetrics)
      requires Valid()
      modifies this`metricsByUUID, this`insertionOrder
      ensures metricsByUUID == old(metricsByUUID)[metrics.jobId := metrics]
      ensures insertionOrder == OrderAfterPut(old(insertionOrder), old(metricsByUUID), metrics.jobId)
      ensures Valid()
    {
      PutKeepsEnumeration(insertionOrder, metricsByUUID, metrics.jobId, metrics);
      insertionOrder := OrderAfterPut(insertionOrder, metricsByUUID, metrics.jobId);
      metricsByUUID := metricsByUUID[metrics.jobId := metrics];
    }

    /** `+=`: exactly `add`. */
    method PlusAssign(metrics: IngestionMetrics)
      requires Valid()
      modifies this`metricsByUUID, this`insertionOrder
      ensures metricsByUUID == old(metricsByUUID)[metrics.jobId := metrics]
      ensures insertionOrder == OrderAfterPut(old(insertionOrder), old(metricsByUUID), metrics.jobId)
      ensures Valid()
    {
      Add(metrics);
    }

    /** `remove(uuid)`: deletes that id only, returning the removed entry or null. */
    method Remove(id: Uuid) returns (removed: Option<IngestionMetrics>)
      requires Valid()
      modifies this`metricsByUUID, this`insertionOrder
      ensures removed == if id in old(metricsByUUID) then Some(old(metricsByUUID)[id]) else None
      ensures metricsByUUID == old(metricsByUUID) - {id}
      ensures insertionOrder == Without(old(insertionOrder), id)
      ensures Valid()
    {
      removed := if id in metricsByUUID then Some(metricsByUUID[id]) else None;
      RemoveKeepsEnumeration(insertionOrder, metricsByUUID, id);
      insertionOrder := Without(insertionOrder, id);
      metricsByUUID := metricsByUUID - {id};
    }

    /** `get(jobId)`: the stored entry, or a new `IngestionMetrics(jobId)` with empty sources and metrics. */
    method Get(id: Uuid) returns (metrics: IngestionMetrics)
      requires Valid()
      modifies this`metricsByUUID, this`insertionOrder
      ensures id in old(metricsByUUID) ==> metrics == old(metricsByUUID)[id] && metricsByUUID == old(metricsByUUID)
      ensures insertionOrder == OrderAfterPut(old(insertionOrder), old(metricsByUUID), id)
      ensures id !in old(metricsByUUID) ==>
        metrics.metadata == None &&
        fresh(metrics.jobSources) && metrics.jobSources.sourceNameToMetadata == map[] &&
        fresh(metrics.networkMetrics) && metrics.networkMetrics.containerToMetrics == map[] &&
        metricsByUUID == old(metricsByUUID)[id := metrics]
      ensures metrics.jobId == id && Valid() && id in metricsByUUID
    {
      if id in metricsByUUID {
        metrics := metricsByUUID[id];
      } else {
        var sources := new JobSources();
        var networkMetrics := new NetworkMetrics();
        metrics := IngestionMetrics(id, None, sources, networkMetrics);
        PutKeepsEnumeration(insertionOrder, metricsByUUID, id, metrics);
        insertionOrder := insertionOrder + [id];
        metricsByUUID := metricsByUUID[id := metrics];
      }
    }

    /** `get(jobId)` for text: fails, changing nothing, on text that is not a UUID. */
    method GetText(text: string, fromString: string -> Option<Uuid>) returns (r: Result<IngestionMetrics, UuidError>)
      requires Valid()
      modifies this`metricsByUUID, this`insertionOrder
      ensures r.Success? <==> fromString(text).Some?
      ensures r.Failure? ==> r.error == InvalidUuid(text) && metricsByUUID == old(metricsByUUID) && insertionOrder == old(insertionOrder)
      ensures r.Success? ==> r.value.jobId == fromString(text).value && r.value.jobId in metricsByUUID
      ensures Valid()
    {
      match fromString(text)
      case None =>
        r := Failure(InvalidUuid(text));
      case Some(id) =>
        var metrics := Get(id);
        r := Success(metrics);
    }

    /**
     * The entries sorted by start time under one of the two comparators;
     * entries with the same start time keep the order they were added in.
     */
    method Sorted(newest: bool) returns (entries: seq<IngestionMetrics>)
      requires Valid()
      ensures |entries| == |metricsByUUID|
      ensures forall e :: e in entries <==> e in metricsByUUID.Values
      ensures forall i, k :: 0 <= i < k < |entries| ==> entries[i].jobId != entries[k].jobId
      ensures forall i, k :: 0 <= i < k < |entries| ==> StartLe(newest, StartTime(entries[i].metadata), StartTime(entries[k].metadata))
      ensures forall t :: S.Filter(entries, StartsAt(MetricsStart, t)) == S.Filter(InKeyOrder(metricsByUUID, insertionOrder), StartsAt(MetricsStart, t))
    {
      var keys := SortedKeys(metricsByUUID, insertionOrder, MetricsStart, newest);
      SortedKeysSpec(metricsByUUID, insertionOrder, MetricsStart, newest);
      SortedValuesSpec(metricsByUUID, insertionOrder, MetricsStart, newest);
      InKeyOrderHasEveryValue(metricsByUUID, keys);
      entries := InKeyOrder(metricsByUUID, keys);
    }

    /** `oldestFirst()`: ascending start time, entries without one last. */
    method OldestFirst() returns (entries: seq<IngestionMetrics>)
      requires Valid()
      ensures |entries| == |metricsByUUID|
      ensures forall e :: e in entries <==> e in metricsByUUID.Values
      ensures forall i, k :: 0 <= i < k < |entries| ==> entries[i].jobId != entries[k].jobId
      ensures forall i, k :: 0 <= i < k < |entries| ==> NullsLastLe(StartTime(entries[i].metadata), StartTime(entries[k].metadata))
      ensures forall t :: S.Filter(entries, StartsAt(MetricsStart, t)) == S.Filter(InKeyOrder(metricsByUUID, insertionOrder), StartsAt(MetricsStart, t))
    {
      entries := Sorted(false);
    }

    /** `newestFirst()`: entries without a start time first, then descending start time. */
    method NewestFirst() returns (entries: seq<IngestionMetrics>)
      requires Valid()
      ensures |entries| == |metricsByUUID|
      ensures forall e :: e in entries <==> e in metricsByUUID.Values
      ensures forall i, k :: 0 <= i < k < |entries| ==> entries[i].jobId != entries[k].jobId
      ensures forall i, k :: 0 <= i < k < |entries| ==> DescendingLe(StartTime(entries[i].metadata), StartTime(entries[k].metadata))
      ensures forall t :: S.Filter(entries, StartsAt(MetricsStart, t)) == S.Filter(InKeyOrder(metricsByUUID, insertionOrder), StartsAt(MetricsStart, t))
    {
      entries := Sorted(true);
    }
  }
}
