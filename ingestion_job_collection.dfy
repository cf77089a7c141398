/**
 * `IngestionJobCollection`: the ingestion jobs keyed by id, with get-or-create
 * access and two views sorted by start time. It is a Kotlin `Collection` of
 * jobs whose `size` is captured once, when the collection is created.
 */
module IngestionJobs {
  import opened Wrappers
  import opened IngestionOrders
  import S = Sorting
  import opened JobSourceTables
  import opened NetworkMetricsTables

  /** An ingestion job: its id, its optional metadata, and its own sources and network metrics. */
  datatype IngestionJob = IngestionJob(id: Uuid, metadata: Option<IngestionMetadata>, sources: JobSources, networkMetrics: NetworkMetrics)

  /** `it.metadata?.startTime`, the key both sorted views compare. */
  function JobStart(job: IngestionJob): Option<Instant>
  {
    StartTime(job.metadata)
  }

  class IngestionJobCollection {
    var jobsByUUID: map<Uuid, IngestionJob>
    /** The linked order of the `LinkedHashMap`: the ids in the order they were first added. */
    var insertionOrder: seq<Uuid>
    /** `override val size`: initialised from the map when the collection is created, and never again. */
    const size: int

    /**
     * Every job is stored under its own id, the insertion order lists each id
     * once, and `size` holds the count the map had when it was created.
     */
    predicate Valid()
      reads this
    {
      (forall id :: id in jobsByUUID ==> jobsByUUID[id].id == id) &&
      Enumerates(insertionOrder, jobsByUUID) && size == 0
    }

    constructor ()
      ensures jobsByUUID == map[] && insertionOrder == [] && Valid() && IsEmpty()
    {
      jobsByUUID := map[];
      insertionOrder := [];
      size := 0;
    }

    /** `contains(jobId)` for a UUID: the id is one the iterator lists. */
    predicate Contains(id: Uuid)
      requires Valid()
      reads this
      ensures Contains(id) <==> id in insertionOrder
    {
      EnumeratedKeys(insertionOrder, jobsByUUID);
      id in jobsByUUID
    }

    /** `contains(jobId)` for text, through `UUID.fromString`, which throws on text that is not a UUID. */
    function ContainsText(text: string, fromString: string -> Option<Uuid>): (r: Result<bool, UuidError>)
      requires Valid()
      reads this
      ensures r.Success? <==> fromString(text).Some?
      ensures r.Failure? ==> r.error == InvalidUuid(text)
      ensures r.Success? ==> (r.value <==> fromString(text).value in jobsByUUID)
    {
      match fromString(text)
      case None => Failure(InvalidUuid(text))
      case Some(id) => Success(Contains(id))
    }

    /** `contains(element)`: some stored job has the element's id, whatever its other contents. */
    predicate ContainsJob(job: IngestionJob)
      requires Valid()
      reads this
      ensures ContainsJob(job) <==> exists j :: j in jobsByUUID.Values && j.id == job.id
    {
      Contains(job.id)
    }

    /** `containsAll(elements)`: every element is one of the stored jobs, so `contains` holds of each. */
    predicate ContainsAll(elements: seq<IngestionJob>)
      requires Valid()
      reads this
      ensures ContainsAll(elements) ==> forall i :: 0 <= i < |elements| ==> ContainsJob(elements[i])
    {
      forall i :: 0 <= i < |elements| ==> elements[i] in jobsByUUID.Values
    }

    /** `isEmpty()`: no id is contained. */
    predicate IsEmpty()
      requires Valid()
      reads this
      ensures IsEmpty() <==> forall id :: !Contains(id)
    {
      EnumeratedKeys(insertionOrder, jobsByUUID);
      assert insertionOrder != [] ==> Contains(insertionOrder[0]);
      jobsByUUID == map[]
    }

    /** The number of jobs held: what `size` evidently should report. */
    function Count(): (n: nat)
      requires Valid()
      reads this
      ensures n == 0 <==> IsEmpty()
    {
      |jobsByUUID|
    }

    /**
     * `add(job)` (and `+=`): stores the job under its id, replacing any job
     * with that id; a replaced job's id keeps its place in the order.
     */
    method Add(job: IngestionJob)
      requires Valid()
      modifies this`jobsByUUID, this`insertionOrder
      ensures jobsByUUID == old(jobsByUUID)[job.id := job]
      ensures insertionOrder == OrderAfterPut(old(insertionOrder), old(jobsByUUID), job.id)
      ensures Valid() && Contains(job.id) && ContainsJob(job) && ContainsAll([job])
    {
      PutKeepsEnumeration(insertionOrder, jobsByUUID, job.id, job);
      insertionOrder := OrderAfterPut(insertionOrder, jobsByUUID, job.id);
      jobsByUUID := jobsByUUID[job.id := job];
    }

    /** `remove(uuid)`: the removed job, or null. */
    method Remove(id: Uuid) returns (removed: Option<IngestionJob>)
      requires Valid()
      modifies this`jobsByUUID, this`insertionOrder
      ensures removed == if id in old(jobsByUUID) then Some(old(jobsByUUID)[id]) else None
      ensures jobsByUUID == old(jobsByUUID) - {id}
      ensures insertionOrder == Without(old(insertionOrder), id)
      ensures Valid() && !Contains(id)
    {
      removed := if id in jobsByUUID then Some(jobsByUUID[id]) else None;
      RemoveKeepsEnumeration(insertionOrder, jobsByUUID, id);
      insertionOrder := Without(insertionOrder, id);
      jobsByUUID := jobsByUUID - {id};
    }

    /** `get(jobId)`: the stored job, or a new `IngestionJob(jobId)` that is stored and returned. */
    method Get(id: Uuid) returns (job: IngestionJob)
      requires Valid()
      modifies this`jobsByUUID, this`insertionOrder
      ensures id in old(jobsByUUID) ==> job == old(jobsByUUID)[id] && jobsByUUID == old(jobsByUUID)
      ensures insertionOrder == OrderAfterPut(old(insertionOrder), old(jobsByUUID), id)
      ensures id !in old(jobsByUUID) ==>
        job.metadata == None &&
        fresh(job.sources) && job.sources.sourceNameToMetadata == map[] &&
        fresh(job.networkMetrics) && job.networkMetrics.containerToMetrics == map[] &&
        jobsByUUID == old(jobsByUUID)[id := job]
      ensures job.id == id && Valid() && Contains(id)
    {
      if id in jobsByUUID {
        job := jobsByUUID[id];
      } else {
        var sources := new JobSources();
        var networkMetrics := new NetworkMetrics();
        job := IngestionJob(id, None, sources, networkMetrics);
        PutKeepsEnumeration(insertionOrder, jobsByUUID, id, job);
        insertionOrder := insertionOrder + [id];
        jobsByUUID := jobsByUUID[id := job];
      }
    }

    /** `get(jobId)` for text: fails, changing nothing, on text that is not a UUID. */
    method GetText(text: string, fromString: string -> Option<Uuid>) returns (r: Result<IngestionJob, UuidError>)
      requires Valid()
      modifies this`jobsByUUID, this`insertionOrder
      ensures r.Success? <==> fromString(text).Some?
      ensures r.Failure? ==> r.error == InvalidUuid(text) && jobsByUUID == old(jobsByUUID) && insertionOrder == old(insertionOrder)
      ensures Valid()
      ensures r.Success? ==> r.value.id == fromString(text).value && Contains(r.value.id)
    {
      match fromString(text)
      case None =>
        r := Failure(InvalidUuid(text));
      case Some(id) =>
        var job := Get(id);
        r := Success(job);
    }

    /** `iterator()`: every stored job once, in the order the ids were first added. */
    method Iterate() returns (jobs: seq<IngestionJob>)
      requires Valid()
      ensures |jobs| == Count()
      ensures forall j :: j in jobs <==> j in jobsByUUID.Values
      ensures forall i, k :: 0 <= i < k < |jobs| ==> jobs[i].id != jobs[k].id
      ensures forall i :: 0 <= i < |jobs| ==> jobs[i].id == insertionOrder[i]
    {
      EnumerationIsDistinct(insertionOrder, jobsByUUID.Keys);
      InKeyOrderHasEveryValue(jobsByUUID, insertionOrder);
      jobs := InKeyOrder(jobsByUUID, insertionOrder);
    }

    /**
     * The jobs sorted by start time under one of the two comparators; jobs
     * with the same start time keep the order they were added in.
     */
    method Sorted(newest: bool) returns (jobs: seq<IngestionJob>)
      requires Valid()
      ensures |jobs| == Count()
      ensures forall j :: j in jobs <==> j in jobsByUUID.Values
      ensures forall i, k :: 0 <= i < k < |jobs| ==> jobs[i].id != jobs[k].id
      ensures forall i, k :: 0 <= i < k < |jobs| ==> StartLe(newest, StartTime(jobs[i].metadata), StartTime(jobs[k].metadata))
      ensures forall t :: S.Filter(jobs, StartsAt(JobStart, t)) == S.Filter(InKeyOrder(jobsByUUID, insertionOrder), StartsAt(JobStart, t))
    {
      var keys := SortedKeys(jobsByUUID, insertionOrder, JobStart, newest);
      SortedKeysSpec(jobsByUUID, insertionOrder, JobStart, newest);
      SortedValuesSpec(jobsByUUID, insertionOrder, JobStart, newest);
      InKeyOrderHasEveryValue(jobsByUUID, keys);
      jobs := InKeyOrder(jobsByUUID, keys);
    }

    /** `oldestFirst()`: ascending start time, jobs without one last. */
    method OldestFirst() returns (jobs: seq<IngestionJob>)
      requires Valid()
      ensures |jobs| == Count()
      ensures forall j :: j in jobs <==> j in jobsByUUID.Values
      ensures forall i, k :: 0 <= i < k < |jobs| ==> jobs[i].id != jobs[k].id
      ensures forall i, k :: 0 <= i < k < |jobs| ==> NullsLastLe(StartTime(jobs[i].metadata), StartTime(jobs[k].metadata))
      ensures forall t :: S.Filter(jobs, StartsAt(JobStart, t)) == S.Filter(InKeyOrder(jobsByUUID, insertionOrder), StartsAt(JobStart, t))
    {
      jobs := Sorted(false);
    }

    /** `newestFirst()`: jobs without a start time first, then descending start time. */
    method NewestFirst() returns (jobs: seq<IngestionJob>)
      requires Valid()
      ensures |jobs| == Count()
      ensures forall j :: j in jobs <==> j in jobsByUUID.Values
      ensures forall i, k :: 0 <= i < k < |jobs| ==> jobs[i].id != jobs[k].id
      ensures forall i, k :: 0 <= i < k < |jobs| ==> DescendingLe(StartTime(jobs[i].metadata), StartTime(jobs[k].metadata))
      ensures forall t :: S.Filter(jobs, StartsAt(JobStart, t)) == S.Filter(InKeyOrder(jobsByUUID, insertionOrder), StartsAt(JobStart, t))
    {
      jobs := Sorted(true);
    }
  }

  /** `contains(element)` answers true for a job that `containsAll` does not find: one with a stored id but other contents. */
  lemma ContainsMatchesIdOnly(c: IngestionJobCollection, job: IngestionJob)
    requires c.Valid() && job.id in c.jobsByUUID
    ensures c.ContainsJob(job)
    ensures c.ContainsAll([job]) <==> c.jobsByUUID[job.id] == job
  {
    assert c.ContainsAll([job]) <==> job in c.jobsByUUID.Values by {
      assert [job][0] == job;
    }
    if job in c.jobsByUUID.Values {
      var k :| k in c.jobsByUUID && c.jobsByUUID[k] == job;
      assert k == job.id;
    }
  }

  /** `size` disagrees with the contents as soon as the collection holds a job. */
  lemma SizeIsStale(c: IngestionJobCollection)
    requires c.Valid() && !c.IsEmpty()
    ensures c.size == 0 && c.Count() > 0
  {
  }
}
