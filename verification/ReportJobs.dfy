/**
  Report jobs, one at a time: the report_jobs table, the artifact volume, and the body of a job with
  its catch and finally branches.
 */
module ReportJobs {
  import opened Wrappers

  datatype Status = Pending | Running | Succeeded | Failed

  predicate Terminal(status: Status) {
    status == Succeeded || status == Failed
  }

  datatype Format = Xlsx | Pdf | Csv

  function Extension(format: Format): string {
    match format
    case Xlsx => "xlsx"
    case Pdf => "pdf"
    case Csv => "csv"
  }

  /** One row; timestamps and request parameters are left out. */
  datatype Job = Job(format: Format, status: Status, error: Option<string>, artifactPath: Option<string>, artifactBytes: Option<nat>)

  type Bytes = seq<bv8>

  // ------------------------------------------------------------------ the table

  function NewRow(format: Format): Job {
    Job(format, Pending, None, None, None)
  }

  function AsRunning(job: Job): Job {
    job.(status := Running)
  }

  function AsSucceeded(job: Job, path: string, bytes: nat): Job {
    job.(status := Succeeded, artifactPath := Some(path), artifactBytes := Some(bytes), error := None)
  }

  function AsFailed(job: Job, error: string): Job {
    job.(status := Failed, error := Some(error))
  }

  /** UPDATE .. WHERE id = ?: no row, no effect. */
  function Update(rows: map<string, Job>, id: string, change: Job -> Job): map<string, Job> {
    if id in rows then rows[id := change(rows[id])] else rows
  }

  const RECONCILED := "reconciled on startup: interrupted by shutdown or crash"

  function FailNonTerminal(rows: map<string, Job>): map<string, Job> {
    map id | id in rows :: if Terminal(rows[id].status) then rows[id] else AsFailed(rows[id], RECONCILED)
  }

  /**
    How a step of a job ends: it works, it takes effect but fails to say so, or it does not take effect
    and throws an exception, a cancellation, or an Error (a Throwable that passes both catch clauses).
   */
  datatype Fate = Works | Unacked | Throws | Cancels | Dies

  predicate TakesEffect(fate: Fate) {
    fate.Works? || fate.Unacked?
  }

  /** Each method is one call; `ok` is false when it throws. */
  class ReportJobRepository {
    var rows: map<string, Job>

    constructor ()
      ensures rows == map[]
    {
      rows := map[];
    }

    method Insert(id: string, format: Format, fate: Fate) returns (ok: bool)
      modifies this
      ensures ok <==> fate.Works? && id !in old(rows)
      ensures rows == if TakesEffect(fate) && id !in old(rows) then old(rows)[id := NewRow(format)] else old(rows)
    {
      ok := fate.Works? && id !in rows;
      if TakesEffect(fate) && id !in rows {
        rows := rows[id := Job(format, Pending, None, None, None)];
      }
    }

    method SetRunning(id: string, fate: Fate) returns (ok: bool)
      modifies this
      ensures ok <==> fate.Works?
      ensures rows == if TakesEffect(fate) then Update(old(rows), id, AsRunning) else old(rows)
    {
      ok := fate.Works?;
      if TakesEffect(fate) && id in rows {
        rows := rows[id := rows[id].(status := Running)];
      }
    }

    method SetSucceeded(id: string, path: string, bytes: nat, fate: Fate) returns (ok: bool)
      modifies this
      ensures ok <==> fate.Works?
      ensures rows == if TakesEffect(fate) then Update(old(rows), id, job => AsSucceeded(job, path, bytes)) else old(rows)
    {
      ok := fate.Works?;
      if TakesEffect(fate) && id in rows {
        rows := rows[id := rows[id].(status := Succeeded, artifactPath := Some(path), artifactBytes := Some(bytes), error := None)];
      }
    }

    /** Whether the call says so makes no difference here: nothing in the body follows it. */
    method SetFailed(id: string, error: string, takesEffect: bool)
      modifies this
      ensures rows == if takesEffect then Update(old(rows), id, job => AsFailed(job, error)) else old(rows)
    {
      if takesEffect && id in rows {
        rows := rows[id := rows[id].(status := Failed, error := Some(error))];
      }
    }

    /** Startup reconciliation: afterwards no row is open, terminal rows are untouched, and the count is of the rows it changed. */
    method ReconcileOrphanedJobs() returns (reconciled: nat)
      modifies this
      ensures rows == FailNonTerminal(old(rows))
      ensures forall id :: id in rows ==> Terminal(rows[id].status)
      ensures reconciled == |set id | id in old(rows) && !Terminal(old(rows)[id].status)|
    {
      var open := set id | id in rows && !Terminal(rows[id].status);
      rows := map id | id in rows :: if id in open then rows[id].(status := Failed, error := Some(RECONCILED)) else rows[id];
      reconciled := |open|;
    }
  }

  // ------------------------------------------------------------------ the artifact volume

  /** The file a job's artifact is written to, below the artifact root. An id is a UUID, so the name is one path component. */
  function FileName(id: string, format: Format): string {
    id + "." + Extension(format)
  }

  /** The name is the id with the format's suffix. */
  lemma FileNameIs(id: string)
    ensures FileName(id, Xlsx) == id + ".xlsx" && FileName(id, Pdf) == id + ".pdf" && FileName(id, Csv) == id + ".csv"
  {
  }

  /** At most one job can own a file name. */
  lemma FileNamesAreInjective(a: string, f: Format, b: string, g: Format)
    requires FileName(a, f) == FileName(b, g)
    ensures a == b && f == g
  {
    var x, y := FileName(a, f), FileName(b, g);
    assert x[|x| - 1] == Extension(f)[|Extension(f)| - 1];
    assert y[|y| - 1] == Extension(g)[|Extension(g)| - 1];
    assert f == g;
    assert a == x[..|a|] && b == y[..|b|];
  }

  /** Writing a file can fail before it exists or after part of it was written, each with an Exception or an Error. */
  datatype WriteFate = Written | NotCreated(dies: bool) | Partly(upTo: nat, dies: bool)

  class ArtifactStore {
    var files: map<string, Bytes>

    constructor ()
      ensures files == map[]
    {
      files := map[];
    }

    method Write(id: string, format: Format, bytes: Bytes, fate: WriteFate) returns (path: Option<string>)
      modifies this
      ensures path == if fate.Written? then Some(FileName(id, format)) else None
      ensures files == match fate
                       case Written => old(files)[FileName(id, format) := bytes]
                       case NotCreated(_) => old(files)
                       case Partly(n, _) => old(files)[FileName(id, format) := bytes[..if n < |bytes| then n else |bytes|]]
    {
      var target := FileName(id, format);
      match fate
      case Written =>
        files := files[target := bytes];
        return Some(target);
      case NotCreated(_) =>
        return None;
      case Partly(n, _) =>
        files := files[target := bytes[..if n < |bytes| then n else |bytes|]];
        return None;
    }

    /** deleteOrphanedArtifact: best effort, never throws. */
    method DeleteOrphaned(path: Option<string>, works: bool)
      modifies this
      ensures files == if path.Some? && works then old(files) - {path.value} else old(files)
    {
      if path.Some? && works {
        files := files - {path.value};
      }
    }
  }

  // ------------------------------------------------------------------ one job

  datatype Faults = Faults(
    markRunning: Fate,
    render: Fate,
    write: WriteFate,
    markSucceeded: Fate,
    deleteWorks: bool,
    markFailedWorks: bool)

  /** No step failed. */
  predicate AllWork(f: Faults) {
    f.markRunning.Works? && f.render.Works? && f.write.Written? && f.markSucceeded.Works?
  }

  /** An Error ended the body before a terminal status was written. */
  predicate Died(f: Faults) {
    || f.markRunning.Dies?
    || (f.markRunning.Works? && f.render.Dies?)
    || (ReachesWrite(f) && !f.write.Written? && f.write.dies)
    || (ReachesWrite(f) && f.write.Written? && f.markSucceeded.Dies?)
  }

  predicate ReachesWrite(f: Faults) {
    f.markRunning.Works? && f.render.Works?
  }

  /** The success was recorded, and an exception followed. */
  predicate LosesAck(f: Faults) {
    ReachesWrite(f) && f.write.Written? && f.markSucceeded.Unacked?
  }

  /** A failed job leaves its file behind: a partial write, a failed delete, or an Error after the write. */
  predicate LeavesFile(f: Faults) {
    ReachesWrite(f) &&
    (f.write.Partly? || (f.write.Written? && !f.markSucceeded.Works? && (f.markSucceeded.Dies? || !f.deleteWorks)))
  }

  /** The row when the try block is over. */
  function TriedRow(row: Job, path: string, size: nat, f: Faults): Job {
    if AllWork(f) || LosesAck(f) then AsSucceeded(AsRunning(row), path, size)
    else if TakesEffect(f.markRunning) then AsRunning(row)
    else row
  }

  /** The file when the try block is over. */
  function TriedFile(bytes: Bytes, f: Faults): Option<Bytes> {
    if !ReachesWrite(f) then None
    else match f.write
      case Written => Some(bytes)
      case NotCreated(_) => None
      case Partly(n, _) => Some(bytes[..if n < |bytes| then n else |bytes|])
  }

  /** Which failures end in a catch branch. */
  predicate Caught(f: Faults) {
    !AllWork(f) && !Died(f)
  }

  /** The fate of the step that ended the try block. */
  function Ending(f: Faults): Fate {
    if !f.markRunning.Works? then f.markRunning
    else if !f.render.Works? then f.render
    else if !f.write.Written? then (if f.write.dies then Dies else Throws)
    else f.markSucceeded
  }

  /** What a catch branch records: a cancellation is told from every other exception, which has its own message. */
  function Recorded(f: Faults, message: string): string {
    if Ending(f).Cancels? then "interrupted by shutdown" else message
  }

  function FinalRow(row: Job, path: string, size: nat, f: Faults, message: string): Job {
    var tried := TriedRow(row, path, size, f);
    if Caught(f) && f.markFailedWorks then AsFailed(tried, Recorded(f, message)) else tried
  }

  function FinalFile(bytes: Bytes, f: Faults): Option<Bytes> {
    if Caught(f) && ReachesWrite(f) && f.write.Written? && f.deleteWorks then None else TriedFile(bytes, f)
  }

  function WithFile(files: map<string, Bytes>, name: string, file: Option<Bytes>): map<string, Bytes> {
    if file.Some? then files[name := file.value] else files
  }

  /** What the faults make of a pending row and its file. */
  lemma FinalOutcome(row: Job, path: string, bytes: Bytes, f: Faults, message: string)
    requires row.status == Pending
    ensures var r, file := FinalRow(row, path, |bytes|, f, message), FinalFile(bytes, f);
            && (r.status == Failed ==> r.error == Some(if Ending(f) == Cancels then "interrupted by shutdown" else message))
            && (r.status == Succeeded ==> r.error == None) && (!Terminal(r.status) ==> r.error == row.error)
            && (r.status == Succeeded <==> AllWork(f) || (LosesAck(f) && !f.markFailedWorks))
            && (!Terminal(r.status) <==> Died(f) || (!AllWork(f) && !LosesAck(f) && !f.markFailedWorks))
            && (file.Some? <==> AllWork(f) || LeavesFile(f))
            && (r.status == Succeeded ==> r.artifactPath == Some(path) && r.artifactBytes == Some(|bytes|))
            && (r.status == Succeeded && file.Some? ==> file == Some(bytes))
  {
  }

  class ReportService {
    const repository: ReportJobRepository
    const artifacts: ArtifactStore
    var inflight: int

    constructor (repository: ReportJobRepository, artifacts: ArtifactStore)
      ensures this.repository == repository && this.artifacts == artifacts && inflight == 0
    {
      this.repository, this.artifacts, inflight := repository, artifacts, 0;
    }

    /** The two catch branches: delete what was written, then try to record the failure. */
    method Fail(id: string, writtenPath: Option<string>, message: string, faults: Faults)
      modifies repository, artifacts
      ensures repository.rows == if faults.markFailedWorks then Update(old(repository.rows), id, job => AsFailed(job, message))
                                 else old(repository.rows)
      ensures artifacts.files == if writtenPath.Some? && faults.deleteWorks
                                 then old(artifacts.files) - {writtenPath.value} else old(artifacts.files)
    {
      artifacts.DeleteOrphaned(writtenPath, faults.deleteWorks);
      repository.SetFailed(id, message, faults.markFailedWorks);
    }

    /** The try block; `fate` is how it ended. */
    method Attempt(id: string, format: Format, bytes: Bytes, faults: Faults) returns (fate: Fate, writtenPath: Option<string>)
      requires id in repository.rows && FileName(id, format) !in artifacts.files
      modifies repository, artifacts
      ensures fate == Ending(faults) && (fate.Works? <==> AllWork(faults)) && (fate.Dies? <==> Died(faults))
      ensures writtenPath == if ReachesWrite(faults) && faults.write.Written? then Some(FileName(id, format)) else None
      ensures artifacts.files == WithFile(old(artifacts.files), FileName(id, format), TriedFile(bytes, faults))
      ensures repository.rows
           == old(repository.rows)[id := TriedRow(old(repository.rows)[id], FileName(id, format), |bytes|, faults)]
    {
      writtenPath := None;
      var ok := repository.SetRunning(id, faults.markRunning);
      if !ok {
        return faults.markRunning, None;
      }
      if !faults.render.Works? {
        return faults.render, None;
      }
      writtenPath := artifacts.Write(id, format, bytes, faults.write);
      if writtenPath.None? {
        return if faults.write.dies then Dies else Throws, None;
      }
      ok := repository.SetSucceeded(id, writtenPath.value, |bytes|, faults.markSucceeded);
      return if ok then Works else faults.markSucceeded, writtenPath;
    }

    /** The try block and the catch branch it ends in. */
    method AttemptAndCatch(id: string, format: Format, bytes: Bytes, faults: Faults, message: string)
      requires id in repository.rows && FileName(id, format) !in artifacts.files
      modifies repository, artifacts
      ensures repository.rows
           == old(repository.rows)[id := FinalRow(old(repository.rows)[id], FileName(id, format), |bytes|, faults, message)]
      ensures artifacts.files == WithFile(old(artifacts.files), FileName(id, format), FinalFile(bytes, faults))
    {
      var fate, writtenPath := Attempt(id, format, bytes, faults);
      match fate {
        case Works =>
        case Cancels => Fail(id, writtenPath, "interrupted by shutdown", faults);
        case Unacked => Fail(id, writtenPath, message, faults);
        case Throws => Fail(id, writtenPath, message, faults);
        case Dies =>
      }
    }

    /**
      runJob, whichever step fails. The row succeeds exactly when every step works, or when the success
      was recorded, an exception followed, and the failure could not be recorded. It stays open exactly
      when an Error escaped or the failure of an open row could not be recorded. The artifact is on the
      volume exactly when every step works or the failure left it behind; a succeeded row records its
      path and size, a failed one the message of what ended it. No other row or file changes, and the inflight gauge is back where it was.
     */
    method RunJob(id: string, format: Format, bytes: Bytes, faults: Faults, message: string)
      requires id in repository.rows && repository.rows[id].status == Pending
      requires FileName(id, format) !in artifacts.files
      modifies this`inflight, repository, artifacts
      ensures inflight == old(inflight)
      ensures repository.rows.Keys == old(repository.rows.Keys)
      ensures forall other :: other in old(repository.rows) && other != id ==> repository.rows[other] == old(repository.rows)[other]
      ensures artifacts.files - {FileName(id, format)} == old(artifacts.files)
      ensures repository.rows[id].status == Succeeded <==> AllWork(faults) || (LosesAck(faults) && !faults.markFailedWorks)
      ensures !Terminal(repository.rows[id].status) <==>
                Died(faults) || (!AllWork(faults) && !LosesAck(faults) && !faults.markFailedWorks)
      ensures FileName(id, format) in artifacts.files <==> AllWork(faults) || LeavesFile(faults)
      ensures repository.rows[id].status == Succeeded ==>
                && repository.rows[id].artifactPath == Some(FileName(id, format))
                && repository.rows[id].artifactBytes == Some(|bytes|)
      ensures repository.rows[id].status == Succeeded && FileName(id, format) in artifacts.files ==>
                artifacts.files[FileName(id, format)] == bytes
      ensures repository.rows[id].status == Failed ==>
                repository.rows[id].error == Some(if Ending(faults) == Cancels then "interrupted by shutdown" else message)
      ensures repository.rows[id].status == Succeeded ==> repository.rows[id].error == None
    {
      FinalOutcome(repository.rows[id], FileName(id, format), bytes, faults, message);
      inflight := inflight + 1;
      AttemptAndCatch(id, format, bytes, faults, message);
      inflight := inflight - 1;
    }
  }
}
