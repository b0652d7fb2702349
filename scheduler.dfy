/**
 * The analysis service of src/services/analysisService.js as objects that
 * change in place: the `AnalysisQueue` instance with its queue, running map
 * and ceiling, and the document store its `analyzeFile` writes to. Each
 * method is proved to perform the transition of `QueueModel` or `Lifecycle`
 * that it models, so every property proved there holds of these objects.
 *
 * The runtime's share of the state (the `analyzeFile` calls in flight and
 * the scheduled `setImmediate` callbacks) is kept in ghost fields.
 */
module Scheduler {
  import opened Common
  import opened QueueModel
  import L = Lifecycle
  import Engine

  /** The documents behind the `File` and `Analysis` models. */
  class Repository {
    var files: map<FileId, L.FileDoc>
    var analyses: map<L.RecordId, L.AnalysisDoc>
    var nextId: L.RecordId

    function Snapshot(): L.Store
      reads this
    {
      L.Store(files, analyses, nextId)
    }

    /** A store holding the given uploaded files and no analysis record. */
    constructor (uploaded: map<FileId, L.FileDoc>)
      ensures Snapshot() == L.Store(uploaded, map[], 0)
    {
      files := uploaded;
      analyses := map[];
      nextId := 0;
    }

    /** The start of `analyzeFile`: look the file up, save a `running` record, link the file to it. */
    method BeginAnalysis(id: FileId) returns (r: Result<L.Job, string>)
      modifies this
      ensures (r, Snapshot()) == L.Begin(old(Snapshot()), id)
    {
      if id !in files {
        return Err(L.MissingFilePrefix + id);
      }
      var rid := nextId;
      nextId := nextId + 1;
      analyses := analyses[rid := L.NewRecord(id)];
      var file := L.SetFileStatus(files[id], L.Running, None);
      file := file.(analysisId := Some(rid));
      files := files[id := file];
      r := Ok(L.Job(id, rid, file));
    }

    /** The end of `analyzeFile`: store the results or the error on the record and the file. */
    method FinishAnalysis(j: L.Job, outcome: Engine.EngineOutcome)
      modifies this
      ensures Snapshot() == L.Finish(old(Snapshot()), j, outcome)
    {
      var record := if j.recordId in analyses then analyses[j.recordId] else L.NewRecord(j.fileId);
      var (record', file') := L.SettleDocs(record, j.file, Engine.RunAnalysis(j.file.fileType, outcome));
      analyses := analyses[j.recordId := record'];
      files := files[j.fileId := file'];
    }

    /** The document part of `reAnalyze`: reset the file to `pending` and drop its record. */
    method ResetFile(id: FileId) returns (err: Option<string>)
      modifies this
      ensures var res := L.Reset(old(Snapshot()), id);
              && (err.Some? <==> res.Err?)
              && (res.Err? ==> err == Some(res.error) && Snapshot() == old(Snapshot()))
              && (res.Ok? ==> Snapshot() == res.value)
    {
      if id !in files {
        return Some(L.MissingFileMessage);
      }
      var file := L.SetFileStatus(files[id], L.Pending, None);
      files := files[id := file];
      if file.analysisId.Some? {
        analyses := analyses - {file.analysisId.value};
        file := file.(analysisId := None);
        files := files[id := file];
      }
      err := None;
    }
  }

  /** One entry of `runningTasks`. */
  datatype RunningTask = RunningTask(fileId: FileId, startTime: Time, duration: int)

  /** The answer of `getQueueStatus`. */
  datatype QueueStatus = QueueStatus(
    waiting: nat, running: nat, maxConcurrent: int, runningTasks: seq<RunningTask>)

  function TaskIds(tasks: seq<RunningTask>): set<FileId> {
    set i | 0 <= i < |tasks| :: tasks[i].fileId
  }

  predicate DistinctTasks(tasks: seq<RunningTask>) {
    forall i, j :: 0 <= i < j < |tasks| ==> tasks[i].fileId != tasks[j].fileId
  }

  lemma TaskIdsSnoc(tasks: seq<RunningTask>, t: RunningTask)
    ensures TaskIds(tasks + [t]) == TaskIds(tasks) + {t.fileId}
  {
    var ts := tasks + [t];
    assert forall i :: 0 <= i < |tasks| ==> ts[i] == tasks[i];
    assert ts[|tasks|] == t;
  }

  lemma DistinctSnoc(tasks: seq<RunningTask>, t: RunningTask)
    requires DistinctTasks(tasks) && t.fileId !in TaskIds(tasks)
    ensures DistinctTasks(tasks + [t])
  {
    var ts := tasks + [t];
    forall i, j | 0 <= i < j < |ts| ensures ts[i].fileId != ts[j].fileId {
      if j == |tasks| {
        assert ts[i] == tasks[i];
      }
    }
  }

  /** The id `process` would admit next, if any. */
  function Admitted(s: QueueState): Option<FileId> {
    if CanAdmit(s) then Some(s.queue[0]) else None
  }

  /** The effect on the documents of admitting `admitted`: an `analyzeFile` call starts. */
  function StartEffect(st: L.Store, admitted: Option<FileId>): (Option<Result<L.Job, string>>, L.Store) {
    match admitted
    case None => (None, st)
    case Some(id) =>
      var (r, st') := L.Begin(st, id);
      (Some(r), st')
  }

  class AnalysisQueue {
    var queue: seq<FileId>
    var running: map<FileId, Time>
    const maxConcurrent: int
    const repo: Repository
    ghost var jobs: multiset<FileId>
    ghost var deferred: nat

    ghost function State(): QueueState
      reads this
    {
      QueueState(queue, running, maxConcurrent, jobs, deferred)
    }

    /** `new AnalysisQueue()`, with the environment's `MAX_CONCURRENT_ANALYSIS` as a parameter. */
    constructor (store: Repository, env: Option<string>)
      ensures State() == Initial(env) && repo == store
    {
      queue := [];
      running := map[];
      maxConcurrent := MaxConcurrentFrom(env);
      repo := store;
      jobs := multiset{};
      deferred := 0;
    }

    /**
     * `process`: at most one admission. The admitted id's `analyzeFile`
     * call starts; its answer is the started job, or the error it rejects
     * with when the file is missing.
     */
    method Process(now: Time) returns (started: Option<Result<L.Job, string>>)
      modifies this, repo
      ensures State() == ProcessStep(old(State()), now)
      ensures (started, repo.Snapshot()) == StartEffect(old(repo.Snapshot()), Admitted(old(State())))
    {
      if |running| >= maxConcurrent || |queue| == 0 {
        return None;
      }
      var id := queue[0];
      queue := queue[1..];
      running := running[id := now];
      jobs := jobs + multiset{id};
      var r := repo.BeginAnalysis(id);
      started := Some(r);
    }

    /** `add`: push, then one admission attempt. */
    method Add(id: FileId, now: Time) returns (started: Option<Result<L.Job, string>>)
      modifies this, repo
      ensures State() == AddStep(old(State()), id, now)
      ensures (started, repo.Snapshot()) ==
              StartEffect(old(repo.Snapshot()), Admitted(old(State()).(queue := old(queue) + [id])))
    {
      queue := queue + [id];
      started := Process(now);
    }

    /**
     * A started job settles with the engine's outcome: the documents are
     * written and the `finally` block frees the slot and schedules `process`.
     */
    method Complete(j: L.Job, outcome: Engine.EngineOutcome)
      requires j.fileId in jobs
      modifies this, repo
      ensures repo.Snapshot() == L.Finish(old(repo.Snapshot()), j, outcome)
      ensures State() == SettleStep(old(State()), j.fileId)
    {
      repo.FinishAnalysis(j, outcome);
      Release(j.fileId);
    }

    /**
     * The `finally` block of an `analyzeFile` call: the slot is freed and a
     * `process` is scheduled. A call rejected before it wrote anything
     * (missing file) does only this.
     */
    method Release(id: FileId)
      requires id in jobs
      modifies this
      ensures State() == SettleStep(old(State()), id)
    {
      running := running - {id};
      jobs := jobs - multiset{id};
      deferred := deferred + 1;
    }

    /** A scheduled `setImmediate(() => this.process())` callback runs. */
    method RunDeferred(now: Time) returns (started: Option<Result<L.Job, string>>)
      requires deferred > 0
      modifies this, repo
      ensures State() == WakeStep(old(State()), now)
      ensures (started, repo.Snapshot()) ==
              StartEffect(old(repo.Snapshot()), Admitted(old(State()).(deferred := old(deferred) - 1)))
    {
      deferred := deferred - 1;
      started := Process(now);
    }

    /** `getQueueStatus` at time `now`: counts, the ceiling, and one task per running id. */
    method GetQueueStatus(now: Time) returns (st: QueueStatus)
      ensures st.waiting == |queue| && st.running == |running| && st.maxConcurrent == maxConcurrent
      ensures |st.runningTasks| == |running|
      ensures TaskIds(st.runningTasks) == running.Keys && DistinctTasks(st.runningTasks)
      ensures forall i :: 0 <= i < |st.runningTasks| ==> Reports(st.runningTasks[i], running, now)
    {
      var tasks := ListTasks(running, now);
      st := QueueStatus(|queue|, |running|, maxConcurrent, tasks);
    }
  }

  /** A task reports a running id, its start time and how long it has run at `now`. */
  predicate Reports(t: RunningTask, running: map<FileId, Time>, now: Time) {
    t.fileId in running && t.startTime == running[t.fileId] && t.duration == now - t.startTime
  }

  /** The loop invariant of `ListTasks`: the tasks so far cover the ids no longer remaining. */
  predicate Listed(tasks: seq<RunningTask>, remaining: set<FileId>, running: map<FileId, Time>, now: Time) {
    && remaining <= running.Keys
    && TaskIds(tasks) == running.Keys - remaining
    && |tasks| + |remaining| == |running.Keys|
    && DistinctTasks(tasks)
    && forall i :: 0 <= i < |tasks| ==> Reports(tasks[i], running, now)
  }

  lemma ListOneMore(tasks: seq<RunningTask>, remaining: set<FileId>, running: map<FileId, Time>, now: Time, id: FileId)
    requires Listed(tasks, remaining, running, now) && id in remaining
    ensures Listed(tasks + [RunningTask(id, running[id], now - running[id])], remaining - {id}, running, now)
  {
    var task := RunningTask(id, running[id], now - running[id]);
    assert TaskIds(tasks + [task]) == running.Keys - (remaining - {id}) by {
      TaskIdsSnoc(tasks, task);
    }
    assert |remaining - {id}| == |remaining| - 1 by {
      assert remaining == (remaining - {id}) + {id};
    }
    DistinctSnoc(tasks, task);
    ReportsSnoc(tasks, task, running, now);
  }

  lemma ReportsSnoc(tasks: seq<RunningTask>, t: RunningTask, running: map<FileId, Time>, now: Time)
    requires forall i :: 0 <= i < |tasks| ==> Reports(tasks[i], running, now)
    requires Reports(t, running, now)
    ensures forall i :: 0 <= i < |tasks + [t]| ==> Reports((tasks + [t])[i], running, now)
  {
    var ts := tasks + [t];
    assert forall i :: 0 <= i < |tasks| ==> ts[i] == tasks[i];
  }

  /** `Array.from(running.entries()).map(...)`: one task per entry of the map. */
  method ListTasks(running: map<FileId, Time>, now: Time) returns (tasks: seq<RunningTask>)
    ensures |tasks| == |running|
    ensures TaskIds(tasks) == running.Keys && DistinctTasks(tasks)
    ensures forall i :: 0 <= i < |tasks| ==> Reports(tasks[i], running, now)
  {
    tasks := [];
    var remaining := running.Keys;
    while remaining != {}
      invariant Listed(tasks, remaining, running, now)
      decreases |remaining|
    {
      var id :| id in remaining;
      ListOneMore(tasks, remaining, running, now, id);
      tasks := tasks + [RunningTask(id, running[id], now - running[id])];
      remaining := remaining - {id};
    }
  }

  /** `startAnalysis`: enqueue the file. */
  method StartAnalysis(q: AnalysisQueue, id: FileId, now: Time) returns (started: Option<Result<L.Job, string>>)
    modifies q, q.repo
    ensures q.State() == AddStep(old(q.State()), id, now)
    ensures (started, q.repo.Snapshot()) ==
            StartEffect(old(q.repo.Snapshot()), Admitted(old(q.State()).(queue := old(q.queue) + [id])))
  {
    started := q.Add(id, now);
  }

  /** `queue.indexOf(id)`. */
  method FindQueued(q: AnalysisQueue, id: FileId) returns (index: int)
    ensures index == IndexOf(q.queue, id)
  {
    index := 0;
    while index < |q.queue| && q.queue[index] != id
      invariant 0 <= index <= |q.queue|
      invariant id !in q.queue[..index]
    {
      assert q.queue[..index + 1] == q.queue[..index] + [q.queue[index]];
      index := index + 1;
    }
    if index == |q.queue| {
      assert q.queue[..index] == q.queue;
      index := -1;
    } else {
      IndexOfIsFirst(q.queue, id, index);
    }
  }

  /**
   * `cancelAnalysis`: a queued id loses its first occurrence and the answer
   * is true; a running or unknown id is refused and nothing changes.
   */
  method CancelAnalysis(q: AnalysisQueue, id: FileId) returns (cancelled: bool)
    modifies q
    ensures (cancelled, q.State()) == CancelStep(old(q.State()), id)
  {
    var index := FindQueued(q, id);
    if index > -1 {
      q.queue := q.queue[..index] + q.queue[index + 1..];
      return true;
    }
    if id in q.running {
      return false;
    }
    return false;
  }

  /**
   * `reAnalyze`: a missing file is an error and nothing changes; otherwise
   * the file is reset to `pending`, its record is deleted and it is enqueued.
   */
  method ReAnalyze(q: AnalysisQueue, id: FileId, now: Time)
    returns (r: Result<Option<Result<L.Job, string>>, string>)
    modifies q, q.repo
    ensures var res := L.Reset(old(q.repo.Snapshot()), id);
            && (r.Err? <==> res.Err?)
            && (res.Err? ==> r == Err(res.error) && q.repo.Snapshot() == old(q.repo.Snapshot())
                             && q.State() == old(q.State()))
            && (res.Ok? ==>
                  && q.State() == AddStep(old(q.State()), id, now)
                  && (r.value, q.repo.Snapshot()) ==
                     StartEffect(res.value, Admitted(old(q.State()).(queue := old(q.queue) + [id]))))
  {
    var err := q.repo.ResetFile(id);
    if err.Some? {
      return Err(err.value);
    }
    var started := StartAnalysis(q, id, now);
    r := Ok(started);
  }
}
