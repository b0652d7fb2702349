/**
 * The per-file analysis lifecycle of src/services/analysisService.js over an
 * in-memory store of file documents and analysis records, as pure
 * transitions:
 *   - `Begin` is the part of `analyzeFile` before the engine runs: the file
 *     is looked up, a `running` record is created and the file points to it;
 *   - `Finish` is the rest: the engine outcome is mapped by `runAnalysis`
 *     and written to the record and the file as success or failure;
 *   - `Reset` is `reAnalyze` before it enqueues the file again.
 * The document store behind the `File` and `Analysis` models is two maps
 * and a counter that hands out record ids.
 */
module Lifecycle {
  import opened Common
  import opened Engine
  import Dashboard
  import QueueModel
  import Text

  type FileId = QueueModel.FileId

  /** Record id, handed out in increasing order. */
  type RecordId = nat

  datatype Status = Pending | Running | Completed | Failed

  /** The string stored in the documents and read by the dashboard. */
  function StatusName(st: Status): (name: string)
    ensures name in Dashboard.StatusKeys
    ensures Dashboard.GetStatusText(name) != Dashboard.UnknownStatusText
    ensures st == Pending <==> name == "pending"
    ensures st == Running <==> name == "running"
    ensures st == Completed <==> name == "completed"
    ensures st == Failed <==> name == "failed"
  {
    match st
    case Pending => "pending"
    case Running => "running"
    case Completed => "completed"
    case Failed => "failed"
  }

  /** The fields of a file document the analysis service reads or writes. */
  datatype FileDoc = FileDoc(
    fileType: string,
    analysisStatus: Status,
    analysisId: Option<RecordId>,
    metadata: map<string, Scalar>,
    analysisError: Option<string>)

  /** The configuration every analysis record is created with. */
  datatype Config = Config(
    analysisType: string, includePayload: bool, detectAnomalies: bool, performanceAnalysis: bool)

  const BasicConfig := Config("basic", false, true, true)

  const AnalysisErrorCode := "ANALYSIS_ERROR"

  datatype ErrorDetail = ErrorDetail(code: string, message: string)

  datatype AnalysisDoc = AnalysisDoc(
    fileId: FileId,
    status: Status,
    config: Config,
    results: Option<AnalysisResult>,
    error: Option<ErrorDetail>)

  datatype Store = Store(
    files: map<FileId, FileDoc>,
    analyses: map<RecordId, AnalysisDoc>,
    nextId: RecordId)

  /** Every record id in use was handed out already. */
  predicate IdsFresh(st: Store) {
    forall r :: r in st.analyses ==> r < st.nextId
  }

  /**
   * Every file that points to a record points to one that exists and
   * belongs to it: the "current record" of the file.
   */
  predicate Linked(st: Store) {
    forall f :: f in st.files && st.files[f].analysisId.Some? ==>
      st.files[f].analysisId.value in st.analyses
      && st.analyses[st.files[f].analysisId.value].fileId == f
  }

  predicate Consistent(st: Store) {
    IdsFresh(st) && Linked(st)
  }

  /** `updateAnalysisStatus(status[, error])`: the status, and the error message when one is given. */
  function SetFileStatus(f: FileDoc, status: Status, error: Option<string>): (g: FileDoc)
    ensures g.analysisStatus == status
    ensures g.analysisError == (if error.Some? then error else f.analysisError)
    ensures g.fileType == f.fileType && g.analysisId == f.analysisId && g.metadata == f.metadata
  {
    var withStatus := f.(analysisStatus := status);
    if error.Some? then withStatus.(analysisError := error) else withStatus
  }

  // ---------------------------------------------------------------- analyzeFile

  const MissingFilePrefix := "文件不存在: "

  /** An analysis in flight: the file, its new record and the file document as `analyzeFile` holds it. */
  datatype Job = Job(fileId: FileId, recordId: RecordId, file: FileDoc)

  /** The initial record of an analysis. */
  function NewRecord(id: FileId): AnalysisDoc {
    AnalysisDoc(id, Running, BasicConfig, None, None)
  }

  /**
   * `analyzeFile` up to the engine call: a missing file is an error with the
   * file id in its message, and nothing is written; otherwise a `running`
   * record is created under a fresh id and the file is set to `running` and
   * linked to it.
   */
  function Begin(st: Store, id: FileId): (res: (Result<Job, string>, Store))
    ensures id !in st.files <==> res.0.Err?
    ensures id !in st.files ==> res.0 == Err(MissingFilePrefix + id) && res.1 == st
  {
    if id !in st.files then (Err(MissingFilePrefix + id), st)
    else
      var rid := st.nextId;
      var analyses := st.analyses[rid := NewRecord(id)];
      var file := SetFileStatus(st.files[id], Running, None).(analysisId := Some(rid));
      (Ok(Job(id, rid, file)), Store(st.files[id := file], analyses, rid + 1))
  }

  /** A job as `Begin` hands it out: its document is linked to its record. */
  predicate WellFormedJob(j: Job) {
    j.file.analysisId == Some(j.recordId)
  }

  lemma BeginCreatesRunningRecord(st: Store, id: FileId)
    requires IdsFresh(st) && id in st.files
    ensures var (r, st') := Begin(st, id);
            && r.Ok? && r.value.fileId == id && WellFormedJob(r.value)
            && r.value.recordId !in st.analyses
            && st'.analyses == st.analyses[r.value.recordId := NewRecord(id)]
            && r.value.recordId in st'.analyses && st'.analyses[r.value.recordId].status == Running
            && st'.files == st.files[id := r.value.file]
            && r.value.file.analysisStatus == Running
            && r.value.file.metadata == st.files[id].metadata
            && r.value.file.analysisError == st.files[id].analysisError
            && st'.nextId > st.nextId
  {
  }

  lemma BeginKeepsConsistent(st: Store, id: FileId)
    requires Consistent(st)
    ensures Consistent(Begin(st, id).1)
  {
    if id in st.files {
      var st' := Begin(st, id).1;
      var rid := st.nextId;
      forall f | f in st'.files && st'.files[f].analysisId.Some?
        ensures st'.files[f].analysisId.value in st'.analyses
        ensures st'.analyses[st'.files[f].analysisId.value].fileId == f
      {
        if f != id {
          var r := st.files[f].analysisId.value;
          assert r in st.analyses;
          assert r != rid;
        }
      }
    }
  }

  /** The record status a settled outcome gives. */
  function Outcome(r: Result<AnalysisResult, AnalysisError>): Status {
    if r.Ok? then Completed else Failed
  }

  /**
   * The rest of `analyzeFile`: the engine outcome is mapped by `runAnalysis`.
   * On a result the record becomes `completed` with it, and the file becomes
   * `completed` with its metadata overridden by the result's summary. On an
   * error the record becomes `failed` with code `ANALYSIS_ERROR` and the
   * error's message, and the file becomes `failed` with that message.
   */
  function Finish(st: Store, j: Job, outcome: EngineOutcome): (st': Store)
    ensures st'.nextId == st.nextId
    ensures st'.files.Keys == st.files.Keys + {j.fileId}
    ensures st'.analyses.Keys == st.analyses.Keys + {j.recordId}
    ensures forall f :: f in st.files && f != j.fileId ==> st'.files[f] == st.files[f]
    ensures forall r :: r in st.analyses && r != j.recordId ==> st'.analyses[r] == st.analyses[r]
  {
    var record := if j.recordId in st.analyses then st.analyses[j.recordId] else NewRecord(j.fileId);
    var (record', file') := SettleDocs(record, j.file, RunAnalysis(j.file.fileType, outcome));
    Store(st.files[j.fileId := file'], st.analyses[j.recordId := record'], st.nextId)
  }

  /** The record and the file document once the job has settled with `r`. */
  function SettleDocs(record: AnalysisDoc, file: FileDoc, r: Result<AnalysisResult, AnalysisError>)
    : (AnalysisDoc, FileDoc)
  {
    match r
    case Ok(results) =>
      (record.(results := Some(results), status := Completed),
       SetFileStatus(file, Completed, None).(metadata := file.metadata + results.summary))
    case Err(e) =>
      var msg := ErrorMessage(e);
      (record.(status := Failed, error := Some(ErrorDetail(AnalysisErrorCode, msg))),
       SetFileStatus(file, Failed, Some(msg)))
  }

  /** After a job settles its file and its record report the same status. */
  lemma FinishStatusesAgree(st: Store, j: Job, outcome: EngineOutcome)
    ensures var st' := Finish(st, j, outcome);
            var s := Outcome(RunAnalysis(j.file.fileType, outcome));
            && st'.files[j.fileId].analysisStatus == s
            && st'.analyses[j.recordId].status == s
            && st'.files[j.fileId].analysisId == j.file.analysisId
  {
  }

  /** Success: the results are stored and the summary overrides the metadata key by key. */
  lemma FinishSuccess(st: Store, j: Job, outcome: EngineOutcome)
    requires RunAnalysis(j.file.fileType, outcome).Ok?
    ensures var st' := Finish(st, j, outcome);
            var results := RunAnalysis(j.file.fileType, outcome).value;
            var meta := st'.files[j.fileId].metadata;
            && st'.analyses[j.recordId].results == Some(results)
            && st'.analyses[j.recordId].status == Completed
            && st'.files[j.fileId].analysisStatus == Completed
            && meta.Keys == j.file.metadata.Keys + results.summary.Keys
            && (forall k :: k in results.summary ==> meta[k] == results.summary[k])
            && (forall k :: k in j.file.metadata && k !in results.summary ==> meta[k] == j.file.metadata[k])
  {
  }

  /** Failure: the record carries `ANALYSIS_ERROR` and the message, and the file the same message. */
  lemma FinishFailure(st: Store, j: Job, outcome: EngineOutcome)
    requires RunAnalysis(j.file.fileType, outcome).Err?
    ensures var st' := Finish(st, j, outcome);
            var msg := ErrorMessage(RunAnalysis(j.file.fileType, outcome).error);
            && st'.analyses[j.recordId].status == Failed
            && st'.analyses[j.recordId].error == Some(ErrorDetail(AnalysisErrorCode, msg))
            && st'.files[j.fileId].analysisStatus == Failed
            && st'.files[j.fileId].analysisError == Some(msg)
            && st'.files[j.fileId].metadata == j.file.metadata
  {
  }

  /** A piece of the failure record: a process that exits non-zero is reported with its code and stderr. */
  lemma FinishReportsExitCode(st: Store, j: Job, code: int, stdout: ParsedOutput, stderr: string)
    requires code != 0
    ensures var st' := Finish(st, j, Closed(Some(code), stdout, stderr));
            var detail := st'.analyses[j.recordId].error;
            && detail.Some?
            && detail.value.code == AnalysisErrorCode
            && Text.ParseInt(detail.value.message[|ExitFailurePrefix|..]) == Some(code)
            && Text.EndsWith(detail.value.message, stderr)
  {
    ExitCodeRecoverable(code, stderr);
  }

  /** A zero exit whose output does not parse is recorded as a parse failure carrying the parser's message. */
  lemma FinishReportsParseFailure(st: Store, j: Job, message: string, stderr: string)
    ensures var st' := Finish(st, j, Closed(Some(0), Unparsable(message), stderr));
            var detail := st'.analyses[j.recordId].error;
            && st'.analyses[j.recordId].status == Failed
            && detail.Some?
            && detail.value.code == AnalysisErrorCode
            && Text.StartsWith(detail.value.message, ParseFailurePrefix)
            && Text.EndsWith(detail.value.message, message)
            && st'.files[j.fileId].analysisError == Some(detail.value.message)
  {
  }

  /** A zero exit with parsable output stores exactly the engine's report as the results. */
  lemma FinishStoresReport(st: Store, j: Job, summary: map<string, Scalar>, stderr: string)
    ensures var st' := Finish(st, j, Closed(Some(0), Parsed(summary), stderr));
            && st'.analyses[j.recordId].results == Some(EngineReport(summary))
            && st'.analyses[j.recordId].status == Completed
            && st'.files[j.fileId].analysisStatus == Completed
            && st'.files[j.fileId].metadata == j.file.metadata + summary
  {
  }

  lemma FinishKeepsConsistent(st: Store, j: Job, outcome: EngineOutcome)
    requires Consistent(st) && WellFormedJob(j) && j.recordId < st.nextId
    requires j.recordId in st.analyses ==> st.analyses[j.recordId].fileId == j.fileId
    ensures Consistent(Finish(st, j, outcome))
  {
    var st' := Finish(st, j, outcome);
    FinishStatusesAgree(st, j, outcome);
    assert st'.analyses[j.recordId].fileId == j.fileId;
    WriteKeepsConsistent(st, st', j.fileId, j.recordId);
  }

  /**
   * Writing one file and one record keeps the store consistent when the file
   * points to the record, the record belongs to the file, and the record id
   * was issued.
   */
  lemma WriteKeepsConsistent(st: Store, st': Store, fileId: FileId, recordId: RecordId)
    requires Consistent(st) && recordId < st.nextId && st'.nextId == st.nextId
    requires recordId in st.analyses ==> st.analyses[recordId].fileId == fileId
    requires st'.files.Keys == st.files.Keys + {fileId} && st'.analyses.Keys == st.analyses.Keys + {recordId}
    requires forall f :: f in st.files && f != fileId ==> st'.files[f] == st.files[f]
    requires forall r :: r in st.analyses && r != recordId ==> st'.analyses[r] == st.analyses[r]
    requires st'.files[fileId].analysisId == Some(recordId) && st'.analyses[recordId].fileId == fileId
    ensures Consistent(st')
  {
    forall f | f in st'.files && st'.files[f].analysisId.Some?
      ensures st'.files[f].analysisId.value in st'.analyses
      ensures st'.analyses[st'.files[f].analysisId.value].fileId == f
    {
      if f != fileId {
        var r := st.files[f].analysisId.value;
        assert r in st.analyses && st.analyses[r].fileId == f;
      }
    }
  }

  // ---------------------------------------------------------------- reAnalyze

  const MissingFileMessage := "文件不存在"

  /**
   * `reAnalyze` before the file is enqueued: a missing file is an error and
   * nothing is written; otherwise the file becomes `pending`, and a linked
   * record is deleted and the link cleared.
   */
  function Reset(st: Store, id: FileId): (res: Result<Store, string>)
    ensures id !in st.files <==> res.Err?
    ensures res.Err? ==> res.error == MissingFileMessage
  {
    if id !in st.files then Err(MissingFileMessage)
    else
      var file := SetFileStatus(st.files[id], Pending, None);
      match file.analysisId
      case None => Ok(st.(files := st.files[id := file]))
      case Some(rid) =>
        Ok(Store(st.files[id := file.(analysisId := None)], st.analyses - {rid}, st.nextId))
  }

  lemma ResetClearsRecord(st: Store, id: FileId)
    requires id in st.files
    ensures var st' := Reset(st, id).value;
            var prev := st.files[id];
            && st'.files[id].analysisStatus == Pending
            && st'.files[id].analysisId == None
            && st'.files[id].metadata == prev.metadata
            && (prev.analysisId.Some? ==> prev.analysisId.value !in st'.analyses)
            && st'.analyses.Keys == st.analyses.Keys - (if prev.analysisId.Some? then {prev.analysisId.value} else {})
            && (forall f :: f in st.files && f != id ==> f in st'.files && st'.files[f] == st.files[f])
            && st'.files.Keys == st.files.Keys
            && (forall r :: r in st'.analyses ==> st'.analyses[r] == st.analyses[r])
            && st'.nextId == st.nextId
  {
  }

  lemma ResetKeepsConsistent(st: Store, id: FileId)
    requires Consistent(st) && id in st.files
    ensures Consistent(Reset(st, id).value)
  {
    var st' := Reset(st, id).value;
    forall f | f in st'.files && st'.files[f].analysisId.Some?
      ensures st'.files[f].analysisId.value in st'.analyses
      ensures st'.analyses[st'.files[f].analysisId.value].fileId == f
    {
      var r := st.files[f].analysisId.value;
      assert r in st.analyses && st.analyses[r].fileId == f;
      if st.files[id].analysisId.Some? {
        assert r != st.files[id].analysisId.value;
      }
    }
  }

  /**
   * A restart followed by a new admission leaves the file linked to a new
   * record and its former record gone: records of earlier runs do not pile up.
   */
  lemma RestartReplacesRecord(st: Store, id: FileId)
    requires Consistent(st) && id in st.files && st.files[id].analysisId.Some?
    ensures var st1 := Reset(st, id).value;
            var (r, st2) := Begin(st1, id);
            && r.Ok?
            && st2.files[id].analysisId == Some(r.value.recordId)
            && st.files[id].analysisId.value !in st2.analyses
            && r.value.recordId != st.files[id].analysisId.value
            && |st2.analyses| == |st.analyses|
  {
    var rid := st.files[id].analysisId.value;
    var st1 := Reset(st, id).value;
    assert st1.analyses.Keys == st.analyses.Keys - {rid};
    assert |st1.analyses.Keys| == |st.analyses.Keys| - 1;
    var st2 := Begin(st1, id).1;
    assert st.nextId !in st1.analyses;
    assert st2.analyses.Keys == st1.analyses.Keys + {st.nextId};
  }
}
