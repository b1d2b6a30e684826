/**
  The report service as a transition system: submitters, workers, shutdown, crash and restart,
  interleaved step by step. Each repository call is one step.
 */
module ReportEngine {
  import opened Wrappers
  import opened ReportJobs

  /** Where a running body stands. `Failing` is a catch branch before its delete, `Cleaned` after it. */
  datatype Pc =
    | Starting
    | Building
    | Rendered(bytes: Bytes)
    | Stored(bytes: Bytes)
    | Failing(stored: bool)
    | Cleaned
    | Finishing

  datatype Executor = Open | Draining | Killed

  /** The submitter inside the admission lock, before or after its insert. */
  datatype Holder = Holder(id: string, format: Format, inserted: bool)

  /**
    `mine` are the ids this instance inserted, `finished` those whose body ended, `abandoned` those left
    with an open row and nobody to close it. Over all instances, `leftover` are the ids with a file that
    was left behind and `unacked` those whose recorded success was followed by an exception. `rejected`
    and `lateInsert` record a launch on a shut-down executor and an insert after admission stopped.
   */
  datatype State = State(
    rows: map<string, Job>,
    files: map<string, Bytes>,
    up: bool,
    reconciled: bool,
    accepting: bool,
    holder: Option<Holder>,
    executor: Executor,
    queue: seq<string>,
    running: map<string, Pc>,
    inflight: int,
    mine: set<string>,
    finished: set<string>,
    abandoned: set<string>,
    leftover: set<string>,
    unacked: set<string>,
    rejected: bool,
    lateInsert: bool)

  datatype Label =
    | Boot
    | Reconcile
    | Acquire(id: string, format: Format)
    | Insert(fate: Fate)
    | Launch
    | StopAdmission
    | ShutDown
    | ForceStop
    | Start
    | Work(id: string, fate: Fate, write: WriteFate, bytes: Bytes)
    | Crash

  const INITIAL := State(map[], map[], false, false, false, None, Killed, [], map[], 0, {}, {}, {}, {}, {}, false, false)

  /** The file of a job, once its row exists. */
  function FileOf(s: State, id: string): string
    requires id in s.rows
  {
    FileName(id, s.rows[id].format)
  }

  /** A thread pool of no threads cannot be constructed, so the service does not come up with one. */
  predicate Enabled(s: State, jobConcurrency: nat, l: Label) {
    match l
    case Boot => !s.up && jobConcurrency > 0
    case Reconcile => s.up && !s.reconciled
    case Acquire(id, format) => s.up && s.holder.None? && id !in s.rows && FileName(id, format) !in s.files
    case Insert(_) => s.up && s.holder.Some? && !s.holder.value.inserted
    case Launch => s.up && s.holder.Some? && s.holder.value.inserted
    case StopAdmission => s.up && s.holder.None? && s.accepting
    case ShutDown => s.up && !s.accepting && s.executor == Open
    case ForceStop => s.up && s.executor == Draining
    case Start => s.up && s.executor != Killed && s.queue != [] && |s.running| < jobConcurrency
    case Work(id, _, _, _) => s.up && id in s.running && id in s.rows
    case Crash => s.up
  }

  /** The rest of the submit critical section, once the lock is held. A row whose insert throws is never launched. */
  function SubmitStep(s: State, l: Label): State
    requires s.holder.Some? && (l.Insert? || l.Launch?)
  {
    var h := s.holder.value;
    if l.Insert? then
      if TakesEffect(l.fate) && h.id !in s.rows then
        var t := s.(rows := s.rows[h.id := NewRow(h.format)], mine := s.mine + {h.id},
                    lateInsert := s.lateInsert || !s.accepting);
        if l.fate.Works? then t.(holder := Some(h.(inserted := true)))
        else t.(holder := None, abandoned := s.abandoned + {h.id})
      else s.(holder := None)
    else
      s.(holder := None,
         queue := if s.executor == Open then s.queue + [h.id] else s.queue,
         rejected := s.rejected || s.executor != Open)
  }

  /** What one running body can see and change: its row, its file, where it stands, and its marks. */
  datatype Body = Body(row: Job, file: Option<Bytes>, pc: Pc, abandoned: bool, leftover: bool, unacked: bool)

  /** An exception goes to the catch branch, an Error straight to the finally block. */
  function Fallen(b: Body, fate: Fate, stored: bool): Body {
    if fate.Dies? then Ended(b.(leftover := b.leftover || stored)) else b.(pc := Failing(stored))
  }

  /** The body is over without another word about its row; that abandons the row if it is still open. */
  function Ended(b: Body): Body {
    b.(pc := Finishing, abandoned := b.abandoned || !Terminal(b.row.status))
  }

  /** One step of a body that has not reached its finally block. */
  function BodyStep(id: string, b: Body, fate: Fate, write: WriteFate, bytes: Bytes): Body {
    match b.pc
    case Starting =>
      if fate.Works? then b.(pc := Building, row := AsRunning(b.row))
      else Fallen(if fate.Unacked? then b.(row := AsRunning(b.row)) else b, fate, false)
    case Building => if fate.Works? then b.(pc := Rendered(bytes)) else Fallen(b, fate, false)
    case Rendered(content) =>
      (match write
       case Written => b.(pc := Stored(content), file := Some(content))
       case NotCreated(dies) => Fallen(b, if dies then Dies else Throws, false)
       case Partly(n, dies) =>
         Fallen(b.(file := Some(content[..if n < |content| then n else |content|]), leftover := true),
                if dies then Dies else Throws, false))
    case Stored(content) =>
      var done := AsSucceeded(b.row, FileName(id, b.row.format), |content|);
      if fate.Works? then b.(pc := Finishing, row := done)
      else Fallen(if fate.Unacked? then b.(row := done, unacked := true) else b, fate, true)
    case Failing(stored) =>
      if !stored then b.(pc := Cleaned)
      else if TakesEffect(fate) then b.(pc := Cleaned, file := None)
      else b.(pc := Cleaned, leftover := true)
    case Cleaned =>
      if TakesEffect(fate) then b.(pc := Finishing, row := AsFailed(b.row, "failed")) else Ended(b)
    case Finishing => b
  }

  function FileAt(files: map<string, Bytes>, name: string): Option<Bytes> {
    if name in files then Some(files[name]) else None
  }

  function PutFile(files: map<string, Bytes>, name: string, file: Option<Bytes>): map<string, Bytes> {
    if file.Some? then files[name := file.value] else files - {name}
  }

  function Mark(marks: set<string>, id: string, on: bool): set<string> {
    if on then marks + {id} else marks
  }

  function BodyOf(s: State, id: string): Body
    requires id in s.rows && id in s.running
  {
    Body(s.rows[id], FileAt(s.files, FileOf(s, id)), s.running[id], id in s.abandoned, id in s.leftover, id in s.unacked)
  }

  function WriteBack(s: State, id: string, b: Body): State
    requires id in s.rows
  {
    s.(rows := s.rows[id := b.row], files := PutFile(s.files, FileOf(s, id), b.file), running := s.running[id := b.pc],
       abandoned := Mark(s.abandoned, id, b.abandoned), leftover := Mark(s.leftover, id, b.leftover),
       unacked := Mark(s.unacked, id, b.unacked))
  }

  function Finish(s: State, id: string): State {
    s.(running := s.running - {id}, inflight := s.inflight - 1, finished := s.finished + {id})
  }

  /** One step of a running body; the last one is the finally block. */
  function WorkStep(s: State, id: string, fate: Fate, write: WriteFate, bytes: Bytes): State
    requires id in s.running && id in s.rows
  {
    if s.running[id] == Finishing then Finish(s, id)
    else WriteBack(s, id, BodyStep(id, BodyOf(s, id), fate, write, bytes))
  }

  predicate BeforeCatch(pc: Pc) {
    pc.Starting? || pc.Building? || pc.Rendered? || pc.Stored?
  }

  /** A body whose file is on the volume and would have to be deleted on the way to a failure. */
  predicate AtStake(pc: Pc) {
    pc.Stored? || pc == Failing(true)
  }

  function Stranded(s: State): set<string> {
    set id | id in s.running && AtStake(s.running[id])
  }

  /** A process that is gone, with the table and the volume it leaves. */
  function Down(s: State): State {
    s.(up := false, reconciled := false, accepting := false, holder := None, executor := Killed, queue := [],
       running := map[], inflight := 0, mine := {}, finished := {}, abandoned := {}, leftover := s.leftover + Stranded(s))
  }

  function Held(s: State): set<string> {
    if s.holder.Some? && s.holder.value.inserted then {s.holder.value.id} else {}
  }

  /** The sweep also settles the rows this instance abandoned. */
  function Sweep(s: State): State {
    s.(reconciled := true, rows := FailNonTerminal(s.rows), abandoned := {})
  }

  function Next(s: State, jobConcurrency: nat, l: Label): State {
    if !Enabled(s, jobConcurrency, l) then s
    else match l
      case Boot => s.(up := true, accepting := true, executor := Open)
      case Reconcile => Sweep(s)
      case Acquire(id, format) =>
        if s.accepting then s.(holder := Some(Holder(id, format, false))) else s
      case Insert(_) => SubmitStep(s, l)
      case Launch => SubmitStep(s, l)
      case StopAdmission => s.(accepting := false)
      case ShutDown => s.(executor := Draining)
      case ForceStop => s.(executor := Killed, queue := [])
      case Start =>
        s.(queue := s.queue[1..], running := s.running[s.queue[0] := Starting], inflight := s.inflight + 1)
      case Work(id, fate, write, bytes) => WorkStep(s, id, fate, write, bytes)
      case Crash => Down(s)
  }

  function Run(s: State, jobConcurrency: nat, ls: seq<Label>): State {
    if ls == [] then s else Next(Run(s, jobConcurrency, ls[..|ls| - 1]), jobConcurrency, ls[|ls| - 1])
  }

  // ------------------------------------------------------------------ admission

  ghost predicate DistinctIds(q: seq<string>) {
    forall i, j :: 0 <= i < j < |q| ==> q[i] != q[j]
  }

  /** Tasks are in one place at a time, and each has a row of this instance. */
  ghost predicate Placed(s: State) {
    && DistinctIds(s.queue)
    && (forall id :: id in s.queue ==> id in s.mine && id !in s.running && id !in s.finished && id !in Held(s))
    && (forall id :: id in s.running ==> id in s.mine && id !in s.finished && id !in Held(s))
    && (forall id :: id in s.finished ==> id in s.mine && id !in Held(s))
    && Held(s) <= s.mine <= s.rows.Keys
    && s.abandoned <= s.mine && s.leftover <= s.rows.Keys && s.unacked <= s.rows.Keys
    && (s.holder.Some? && !s.holder.value.inserted ==>
          s.holder.value.id !in s.rows && FileName(s.holder.value.id, s.holder.value.format) !in s.files)
  }

  /** Nothing of an instance is left. */
  ghost predicate Gone(s: State) {
    && !s.reconciled && !s.accepting && s.holder.None? && s.executor == Killed && s.queue == []
    && s.running == map[] && s.inflight == 0 && s.mine == {} && s.finished == {} && s.abandoned == {}
  }

  /** The lock, the flag and the executor. */
  ghost predicate Gated(s: State) {
    && !s.rejected && !s.lateInsert
    && (s.holder.Some? ==> s.accepting)
    && (s.accepting ==> s.executor == Open)
    && (s.executor == Killed ==> s.queue == [])
    && (!s.up ==> Gone(s))
  }

  ghost predicate Pooled(s: State, jobConcurrency: nat) {
    s.inflight == |s.running| <= jobConcurrency && (s.up ==> jobConcurrency > 0)
  }

  ghost predicate Admission(s: State, jobConcurrency: nat) {
    Gated(s) && Pooled(s, jobConcurrency) && Placed(s)
  }

  ghost predicate SameElsewhere(a: map<string, Bytes>, b: map<string, Bytes>, file: string) {
    forall name :: name != file ==> (name in a <==> name in b) && (name in a ==> a[name] == b[name])
  }

  /** What a step of body `id` leaves alone, and the one place where a body ends. */
  ghost predicate WorkFrame(s: State, t: State, id: string) {
    && id in s.running && id in s.rows
    && t.rows.Keys == s.rows.Keys
    && (forall other :: other in s.rows && other != id ==> t.rows[other] == s.rows[other])
    && t.rows[id].format == s.rows[id].format
    && SameElsewhere(s.files, t.files, FileOf(s, id))
    && t.queue == s.queue && t.holder == s.holder && t.mine == s.mine && t.executor == s.executor
    && t.up == s.up && t.accepting == s.accepting && t.reconciled == s.reconciled
    && t.rejected == s.rejected && t.lateInsert == s.lateInsert
    && s.abandoned <= t.abandoned <= s.abandoned + {id}
    && s.leftover <= t.leftover <= s.leftover + {id}
    && s.unacked <= t.unacked <= s.unacked + {id}
    && (if s.running[id] == Finishing
        then t.running == s.running - {id} && t.finished == s.finished + {id} && t.inflight == s.inflight - 1
        else id in t.running && t.running == s.running[id := t.running[id]] && t.finished == s.finished && t.inflight == s.inflight)
  }

  lemma BodyKeepsFormat(id: string, b: Body, fate: Fate, write: WriteFate, bytes: Bytes)
    ensures BodyStep(id, b, fate, write, bytes).row.format == b.row.format
  {
    match b.pc
    case Starting =>
    case Building =>
    case Rendered(_) =>
    case Stored(_) =>
    case Failing(_) =>
    case Cleaned =>
    case Finishing =>
  }

  lemma WorkKeepsFrame(s: State, id: string, fate: Fate, write: WriteFate, bytes: Bytes)
    requires id in s.running && id in s.rows
    ensures WorkFrame(s, WorkStep(s, id, fate, write, bytes), id)
  {
    if s.running[id] != Finishing {
      var b := BodyStep(id, BodyOf(s, id), fate, write, bytes);
      BodyKeepsFormat(id, BodyOf(s, id), fate, write, bytes);
      WriteBackKeepsFrame(s, id, b);
    }
  }

  lemma WriteBackKeepsFrame(s: State, id: string, b: Body)
    requires id in s.running && id in s.rows && s.running[id] != Finishing && b.row.format == s.rows[id].format
    ensures WorkFrame(s, WriteBack(s, id, b), id)
  {
  }

  lemma FramePlaced(s: State, t: State, id: string)
    requires Placed(s) && WorkFrame(s, t, id)
    ensures Placed(t)
  {
    if s.holder.Some? && !s.holder.value.inserted {
      var h := s.holder.value;
      if FileName(h.id, h.format) in t.files {
        FileNamesAreInjective(h.id, h.format, id, s.rows[id].format);
      }
    }
  }

  lemma FramePooled(s: State, t: State, id: string, jobConcurrency: nat)
    requires Pooled(s, jobConcurrency) && WorkFrame(s, t, id)
    ensures Pooled(t, jobConcurrency)
  {
    assert |t.running| == |t.running.Keys| && |s.running| == |s.running.Keys|;
    if s.running[id] == Finishing {
      assert t.running.Keys == s.running.Keys - {id};
    } else {
      assert t.running.Keys == s.running.Keys;
    }
  }

  lemma StartIsPlaced(s: State)
    requires Placed(s) && s.queue != []
    ensures Placed(s.(queue := s.queue[1..], running := s.running[s.queue[0] := Starting], inflight := s.inflight + 1))
  {
    var rest := s.queue[1..];
    assert forall i :: 0 <= i < |rest| ==> rest[i] == s.queue[i + 1];
    assert s.queue[0] in s.queue;
  }

  lemma StartIsPooled(s: State, jobConcurrency: nat)
    requires Pooled(s, jobConcurrency) && |s.running| < jobConcurrency && s.queue != [] && s.queue[0] !in s.running
    ensures Pooled(s.(queue := s.queue[1..], running := s.running[s.queue[0] := Starting], inflight := s.inflight + 1), jobConcurrency)
  {
    var running := s.running[s.queue[0] := Starting];
    assert running.Keys == s.running.Keys + {s.queue[0]};
    assert |running| == |running.Keys| && |s.running| == |s.running.Keys|;
  }

  lemma LaunchIsPlaced(s: State)
    requires Placed(s) && s.holder.Some? && s.holder.value.inserted
    ensures Placed(s.(holder := None, queue := s.queue + [s.holder.value.id]))
  {
    assert s.holder.value.id in Held(s);
  }

  function InsertedRow(s: State): State
    requires s.holder.Some?
  {
    var h := s.holder.value;
    s.(rows := s.rows[h.id := NewRow(h.format)], holder := Some(h.(inserted := true)), mine := s.mine + {h.id})
  }

  /** A row that was inserted, although the submitter was told otherwise. */
  function StrayRow(s: State): State
    requires s.holder.Some?
  {
    var h := s.holder.value;
    s.(rows := s.rows[h.id := NewRow(h.format)], holder := None, mine := s.mine + {h.id}, abandoned := s.abandoned + {h.id})
  }

  lemma InsertIsPlaced(s: State)
    requires Placed(s) && s.holder.Some? && !s.holder.value.inserted
    ensures Placed(InsertedRow(s))
  {
  }

  lemma StrayIsPlaced(s: State)
    requires Placed(s) && s.holder.Some? && !s.holder.value.inserted
    ensures Placed(StrayRow(s))
  {
    assert Held(StrayRow(s)) == {} == Held(s);
  }

  lemma LaunchKeepsAdmission(s: State, jobConcurrency: nat)
    requires Admission(s, jobConcurrency) && s.holder.Some? && s.holder.value.inserted
    ensures SubmitStep(s, Launch) == s.(holder := None, queue := s.queue + [s.holder.value.id])
    ensures Admission(SubmitStep(s, Launch), jobConcurrency)
  {
    LaunchIsPlaced(s);
  }

  /** What an insert leads to: a held row, a stray row, or just a released lock. */
  lemma InsertSteps(s: State, fate: Fate)
    requires Gated(s) && Placed(s) && s.holder.Some? && !s.holder.value.inserted
    ensures fate.Works? ==> SubmitStep(s, Insert(fate)) == InsertedRow(s)
    ensures fate.Unacked? ==> SubmitStep(s, Insert(fate)) == StrayRow(s)
    ensures !TakesEffect(fate) ==> SubmitStep(s, Insert(fate)) == s.(holder := None)
  {
  }

  lemma InsertKeepsAdmission(s: State, jobConcurrency: nat, fate: Fate)
    requires Admission(s, jobConcurrency) && s.up && s.holder.Some? && !s.holder.value.inserted
    ensures Admission(SubmitStep(s, Insert(fate)), jobConcurrency)
  {
    InsertSteps(s, fate);
    if fate.Works? {
      InsertIsPlaced(s);
    } else if fate.Unacked? {
      StrayIsPlaced(s);
    }
  }

  lemma SubmitSteps(s: State, jobConcurrency: nat, l: Label)
    requires Enabled(s, jobConcurrency, l) && (l.Insert? || l.Launch?)
    ensures Next(s, jobConcurrency, l) == SubmitStep(s, l)
    ensures l == Launch || l == Insert(l.fate)
  {
  }

  lemma SubmitStepKeepsAdmission(s: State, jobConcurrency: nat, l: Label)
    requires Admission(s, jobConcurrency) && s.up && s.holder.Some?
    requires (l == Launch && s.holder.value.inserted) || (l.Insert? && !s.holder.value.inserted)
    ensures Admission(SubmitStep(s, l), jobConcurrency)
  {
    if l == Launch {
      LaunchKeepsAdmission(s, jobConcurrency);
    } else {
      InsertKeepsAdmission(s, jobConcurrency, l.fate);
    }
  }

  lemma SubmitKeepsAdmission(s: State, jobConcurrency: nat, l: Label)
    requires Admission(s, jobConcurrency) && Enabled(s, jobConcurrency, l) && (l.Insert? || l.Launch?)
    ensures Admission(Next(s, jobConcurrency, l), jobConcurrency)
  {
    SubmitSteps(s, jobConcurrency, l);
    SubmitStepKeepsAdmission(s, jobConcurrency, l);
  }

  lemma RunningKeepsAdmission(s: State, jobConcurrency: nat, l: Label)
    requires Admission(s, jobConcurrency) && Enabled(s, jobConcurrency, l) && (l.Start? || l.Work?)
    ensures Admission(Next(s, jobConcurrency, l), jobConcurrency)
  {
    if l.Start? {
      assert s.queue[0] in s.queue;
      StartIsPlaced(s);
      StartIsPooled(s, jobConcurrency);
    } else {
      WorkKeepsFrame(s, l.id, l.fate, l.write, l.bytes);
      FramePlaced(s, Next(s, jobConcurrency, l), l.id);
      FramePooled(s, Next(s, jobConcurrency, l), l.id, jobConcurrency);
    }
  }

  lemma OtherKeepsAdmission(s: State, jobConcurrency: nat, l: Label)
    requires Admission(s, jobConcurrency) && Enabled(s, jobConcurrency, l)
    requires !l.Insert? && !l.Launch? && !l.Start? && !l.Work?
    ensures Admission(Next(s, jobConcurrency, l), jobConcurrency)
  {
  }

  lemma StepKeepsAdmission(s: State, jobConcurrency: nat, l: Label)
    requires Admission(s, jobConcurrency)
    ensures Admission(Next(s, jobConcurrency, l), jobConcurrency)
  {
    if Enabled(s, jobConcurrency, l) {
      if l.Insert? || l.Launch? {
        SubmitKeepsAdmission(s, jobConcurrency, l);
      } else if l.Start? || l.Work? {
        RunningKeepsAdmission(s, jobConcurrency, l);
      } else {
        OtherKeepsAdmission(s, jobConcurrency, l);
      }
    }
  }

  /** Over every interleaving, with crashes and restarts, and even with submits before the reconciliation. */
  lemma {:induction false} AdmissionIsAtomicWithShutdown(jobConcurrency: nat, ls: seq<Label>)
    ensures Admission(Run(INITIAL, jobConcurrency, ls), jobConcurrency)
    decreases |ls|
  {
    if ls != [] {
      AdmissionIsAtomicWithShutdown(jobConcurrency, ls[..|ls| - 1]);
      StepKeepsAdmission(Run(INITIAL, jobConcurrency, ls[..|ls| - 1]), jobConcurrency, ls[|ls| - 1]);
    }
  }

  /** Once admission has stopped: nobody in the critical section, no new row, no new task. */
  ghost predicate Closed(s: State, t: State) {
    && !t.accepting && t.holder.None? && t.rows.Keys == s.rows.Keys
    && forall id :: id in t.queue || id in t.running ==> id in s.queue || id in s.running
  }

  lemma StepStaysClosed(s: State, t: State, jobConcurrency: nat, l: Label)
    requires Closed(s, t) && !l.Boot?
    ensures Closed(s, Next(t, jobConcurrency, l))
  {
    if l.Work? && Enabled(t, jobConcurrency, l) {
      WorkKeepsFrame(t, l.id, l.fate, l.write, l.bytes);
    }
  }

  /**
    The shutdown in its own terms: from the step that stops admission to the next boot no row is inserted
    and no task launched, whatever submitters are waiting for the lock.
   */
  lemma {:induction false} NothingIsAdmittedAfterTheStop(jobConcurrency: nat, before: seq<Label>, after: seq<Label>)
    requires Enabled(Run(INITIAL, jobConcurrency, before), jobConcurrency, StopAdmission) && Boot !in after
    ensures var s := Run(INITIAL, jobConcurrency, before);
            Closed(s, Run(Next(s, jobConcurrency, StopAdmission), jobConcurrency, after))
    decreases |after|
  {
    if after != [] {
      var init, s := after[..|after| - 1], Run(INITIAL, jobConcurrency, before);
      NothingIsAdmittedAfterTheStop(jobConcurrency, before, init);
      StepStaysClosed(s, Run(Next(s, jobConcurrency, StopAdmission), jobConcurrency, init), jobConcurrency, after[|after| - 1]);
    }
  }

  /** A launch always finds the executor open, so the task of an inserted row is queued and the lock released. */
  lemma EveryLaunchIsQueued(jobConcurrency: nat, ls: seq<Label>)
    requires Enabled(Run(INITIAL, jobConcurrency, ls), jobConcurrency, Launch)
    ensures var s := Run(INITIAL, jobConcurrency, ls);
            && Next(s, jobConcurrency, Launch).queue == s.queue + [s.holder.value.id]
            && Next(s, jobConcurrency, Launch).holder.None?
  {
    AdmissionIsAtomicWithShutdown(jobConcurrency, ls);
  }

  // ------------------------------------------------------------------ jobs

  /** A succeeded row records where its file is and, while it is there, how long. */
  ghost predicate Recorded(id: string, row: Job, file: Option<Bytes>) {
    row.status == Succeeded ==>
      && row.artifactPath == Some(FileName(id, row.format))
      && (file.Some? ==> row.artifactBytes == Some(|file.value|))
  }

  /**
    The file of a job with no body at work on it: it is on the volume exactly when the row succeeded,
    and not through a success that went unacknowledged, or when something left it there.
   */
  ghost predicate FileOk(id: string, row: Job, file: Option<Bytes>, leftover: bool, unacked: bool) {
    && (file.Some? <==> leftover || (row.status == Succeeded && !unacked))
    && Recorded(id, row, file)
  }

  predicate Unmarked(b: Body) {
    !b.abandoned && !b.leftover && !b.unacked
  }

  /** At any point the startup sweep may have failed the row under the body's hands. */
  ghost predicate BodyOk(id: string, b: Body) {
    match b.pc
    case Starting => (b.row.status == Pending || b.row.status == Failed) && b.file.None? && Unmarked(b)
    case Building => (b.row.status == Running || b.row.status == Failed) && b.file.None? && Unmarked(b)
    case Rendered(_) => (b.row.status == Running || b.row.status == Failed) && b.file.None? && Unmarked(b)
    case Stored(content) => (b.row.status == Running || b.row.status == Failed) && b.file == Some(content) && Unmarked(b)
    case Failing(stored) =>
      && !b.abandoned && (b.row.status == Succeeded <==> b.unacked) && Recorded(id, b.row, b.file)
      && (b.file.Some? <==> stored || b.leftover) && (stored ==> !b.leftover) && (b.unacked ==> stored)
    case Cleaned =>
      && !b.abandoned && (b.row.status == Succeeded <==> b.unacked) && Recorded(id, b.row, b.file)
      && (b.file.Some? <==> b.leftover)
    case Finishing =>
      (Terminal(b.row.status) <==> !b.abandoned) && FileOk(id, b.row, b.file, b.leftover, b.unacked)
  }

  /** A job of this instance whose body has not begun, and may never begin. */
  ghost predicate WaitingOk(s: State, id: string)
    requires id in s.rows
  {
    && id !in s.leftover && id !in s.unacked
    && (s.rows[id].status == Pending || s.rows[id].status == Failed)
    && (id in s.queue || id in Held(s) ==> id !in s.abandoned)
    && (!Terminal(s.rows[id].status) ==> id in s.queue || id in Held(s) || s.executor == Killed || id in s.abandoned)
  }

  ghost predicate JobOk(s: State, id: string)
    requires id in s.rows
  {
    if id in s.running then BodyOk(id, BodyOf(s, id))
    else
      && FileOk(id, s.rows[id], FileAt(s.files, FileOf(s, id)), id in s.leftover, id in s.unacked)
      && (id in s.finished ==> (Terminal(s.rows[id].status) <==> id !in s.abandoned))
      && (id in s.mine && id !in s.finished ==> WaitingOk(s, id))
      && (id !in s.mine && s.reconciled ==> Terminal(s.rows[id].status))
  }

  ghost predicate Good(s: State) {
    forall id :: id in s.rows ==> JobOk(s, id)
  }

  predicate StatusEdge(a: Status, b: Status) {
    || a == b
    || (a == Pending && (b == Running || b == Failed))
    || (a == Running && (b == Succeeded || b == Failed))
  }

  lemma BodyStepIsOk(id: string, b: Body, fate: Fate, write: WriteFate, bytes: Bytes)
    requires BodyOk(id, b) && b.pc != Finishing
    ensures BodyOk(id, BodyStep(id, b, fate, write, bytes))
  {
  }

  /** Marks are never taken back. */
  ghost predicate KeepsMarks(b: Body, c: Body) {
    (b.abandoned ==> c.abandoned) && (b.leftover ==> c.leftover) && (b.unacked ==> c.unacked)
  }

  lemma BodyStepKeepsMarks(id: string, b: Body, fate: Fate, write: WriteFate, bytes: Bytes)
    ensures KeepsMarks(b, BodyStep(id, b, fate, write, bytes))
  {
  }

  lemma WriteBackReadsBack(s: State, id: string, b: Body)
    requires id in s.rows && id in s.running && b.row.format == s.rows[id].format && KeepsMarks(BodyOf(s, id), b)
    ensures BodyOf(WriteBack(s, id, b), id) == b
  {
  }

  /** A step of one body is invisible to every other job. */
  lemma OthersUntouched(s: State, t: State, id: string, other: string)
    requires WorkFrame(s, t, id) && other in s.rows && other != id && JobOk(s, other)
    ensures JobOk(t, other)
  {
    if FileOf(s, other) == FileOf(s, id) {
      FileNamesAreInjective(other, s.rows[other].format, id, s.rows[id].format);
    }
  }

  lemma OthersStayGood(s: State, t: State, id: string)
    requires Good(s) && WorkFrame(s, t, id)
    ensures forall other :: other in t.rows && other != id ==> JobOk(t, other)
  {
    forall other | other in t.rows && other != id
      ensures JobOk(t, other)
    {
      OthersUntouched(s, t, id, other);
    }
  }

  lemma OwnBody(s: State, id: string, fate: Fate, write: WriteFate, bytes: Bytes) returns (b: Body)
    requires id in s.running && id in s.rows && BodyOk(id, BodyOf(s, id)) && s.running[id] != Finishing
    ensures WorkStep(s, id, fate, write, bytes) == WriteBack(s, id, b)
    ensures BodyOk(id, b) && b.row.format == s.rows[id].format && KeepsMarks(BodyOf(s, id), b)
  {
    b := BodyStep(id, BodyOf(s, id), fate, write, bytes);
    BodyStepIsOk(id, BodyOf(s, id), fate, write, bytes);
    BodyStepKeepsMarks(id, BodyOf(s, id), fate, write, bytes);
    BodyKeepsFormat(id, BodyOf(s, id), fate, write, bytes);
  }

  lemma WriteBackKeepsGood(s: State, id: string, b: Body)
    requires Placed(s) && Good(s) && id in s.running && id in s.rows && s.running[id] != Finishing
    requires BodyOk(id, b) && b.row.format == s.rows[id].format && KeepsMarks(BodyOf(s, id), b)
    ensures Good(WriteBack(s, id, b))
  {
    WriteBackKeepsFrame(s, id, b);
    WriteBackReadsBack(s, id, b);
    OthersStayGood(s, WriteBack(s, id, b), id);
  }

  lemma FinishKeepsGood(s: State, id: string)
    requires Placed(s) && Good(s) && id in s.running && id in s.rows && s.running[id] == Finishing
    ensures Good(Finish(s, id))
  {
    assert WorkFrame(s, Finish(s, id), id);
    assert JobOk(s, id);
    OthersStayGood(s, Finish(s, id), id);
  }

  lemma WorkKeepsGood(s: State, id: string, fate: Fate, write: WriteFate, bytes: Bytes)
    requires Placed(s) && Good(s) && id in s.running && id in s.rows
    ensures Good(WorkStep(s, id, fate, write, bytes))
  {
    assert JobOk(s, id);
    if s.running[id] == Finishing {
      FinishKeepsGood(s, id);
    } else {
      var b := OwnBody(s, id, fate, write, bytes);
      WriteBackKeepsGood(s, id, b);
    }
  }

  lemma StartKeepsGood(s: State)
    requires Placed(s) && Good(s) && s.queue != []
    ensures Good(s.(queue := s.queue[1..], running := s.running[s.queue[0] := Starting], inflight := s.inflight + 1))
  {
    var t := s.(queue := s.queue[1..], running := s.running[s.queue[0] := Starting], inflight := s.inflight + 1);
    assert s.queue[0] in s.queue;
    assert JobOk(s, s.queue[0]);
    forall id | id in t.rows
      ensures JobOk(t, id)
    {
      assert JobOk(s, id);
      if id != s.queue[0] && id in s.queue {
        var i :| 0 <= i < |s.queue| && s.queue[i] == id;
        assert t.queue[i - 1] == id;
      }
    }
  }

  /** A new row, held or stray, is a waiting one, and no other job notices. */
  lemma NewRowKeepsGood(s: State, t: State)
    requires Placed(s) && Good(s) && s.holder.Some? && !s.holder.value.inserted
    requires t == InsertedRow(s) || t == StrayRow(s)
    ensures Good(t)
  {
    var h := s.holder.value;
    forall id | id in t.rows
      ensures JobOk(t, id)
    {
      if id != h.id {
        assert JobOk(s, id);
      }
    }
  }

  lemma LaunchKeepsGood(s: State)
    requires Placed(s) && Good(s) && s.holder.Some? && s.holder.value.inserted
    ensures Good(s.(holder := None, queue := s.queue + [s.holder.value.id]))
  {
    var t := s.(holder := None, queue := s.queue + [s.holder.value.id]);
    forall id | id in t.rows
      ensures JobOk(t, id)
    {
      assert JobOk(s, id);
      assert id in s.queue || id in Held(s) <==> id in t.queue;
    }
  }

  lemma ReleaseKeepsGood(s: State)
    requires Good(s) && s.holder.Some? && !s.holder.value.inserted
    ensures Good(s.(holder := None))
  {
    forall id | id in s.rows
      ensures JobOk(s.(holder := None), id)
    {
      assert JobOk(s, id);
    }
  }

  lemma SubmitKeepsGood(s: State, jobConcurrency: nat, l: Label)
    requires Admission(s, jobConcurrency) && Good(s) && Enabled(s, jobConcurrency, l) && (l.Insert? || l.Launch?)
    ensures Good(Next(s, jobConcurrency, l))
  {
    SubmitSteps(s, jobConcurrency, l);
    if l.Launch? {
      LaunchKeepsAdmission(s, jobConcurrency);
      LaunchKeepsGood(s);
    } else {
      InsertSteps(s, l.fate);
      if TakesEffect(l.fate) {
        NewRowKeepsGood(s, SubmitStep(s, l));
      } else {
        ReleaseKeepsGood(s);
      }
    }
  }

  /** The sweep changes only open rows, and no body relies on its row being open. */
  lemma SweepKeepsGood(s: State)
    requires Placed(s) && Good(s)
    ensures Good(Sweep(s))
  {
    var t := Sweep(s);
    forall id | id in t.rows
      ensures JobOk(t, id)
    {
      assert JobOk(s, id);
      if id in s.running {
        SweptBodyIsOk(id, BodyOf(s, id));
        assert BodyOf(t, id) == SweptBody(BodyOf(s, id));
      }
    }
  }

  function SweptBody(b: Body): Body {
    b.(row := if Terminal(b.row.status) then b.row else AsFailed(b.row, RECONCILED), abandoned := false)
  }

  lemma SweptBodyIsOk(id: string, b: Body)
    requires BodyOk(id, b)
    ensures BodyOk(id, SweptBody(b))
  {
  }

  /** A crash leaves every body's file as `leftover` says. */
  lemma CrashKeepsGood(s: State)
    requires Good(s)
    ensures Good(Down(s))
  {
    var t := Down(s);
    forall id | id in t.rows
      ensures JobOk(t, id)
    {
      assert JobOk(s, id);
      if id in s.running {
        assert BodyOk(id, BodyOf(s, id));
      }
    }
  }

  /** The gate and the executor are no business of a row. */
  lemma RestKeepsGood(s: State, jobConcurrency: nat, l: Label)
    requires Admission(s, jobConcurrency) && Good(s) && Enabled(s, jobConcurrency, l)
    requires l.Boot? || l.Acquire? || l.StopAdmission? || l.ShutDown? || l.ForceStop?
    ensures Good(Next(s, jobConcurrency, l))
  {
    var t := Next(s, jobConcurrency, l);
    forall id | id in t.rows
      ensures JobOk(t, id)
    {
      assert JobOk(s, id);
    }
  }

  lemma StepKeepsGood(s: State, jobConcurrency: nat, l: Label)
    requires Admission(s, jobConcurrency) && Good(s)
    ensures Good(Next(s, jobConcurrency, l))
  {
    if Enabled(s, jobConcurrency, l) {
      if l.Insert? || l.Launch? {
        SubmitKeepsGood(s, jobConcurrency, l);
      } else if l.Start? {
        StartKeepsGood(s);
      } else if l.Work? {
        WorkKeepsGood(s, l.id, l.fate, l.write, l.bytes);
      } else if l.Reconcile? {
        SweepKeepsGood(s);
      } else if l.Crash? {
        CrashKeepsGood(s);
      } else {
        RestKeepsGood(s, jobConcurrency, l);
      }
    }
  }

  /** Over every interleaving. */
  lemma {:induction false} JobsStayGood(jobConcurrency: nat, ls: seq<Label>)
    ensures Good(Run(INITIAL, jobConcurrency, ls))
    decreases |ls|
  {
    if ls != [] {
      JobsStayGood(jobConcurrency, ls[..|ls| - 1]);
      AdmissionIsAtomicWithShutdown(jobConcurrency, ls[..|ls| - 1]);
      StepKeepsGood(Run(INITIAL, jobConcurrency, ls[..|ls| - 1]), jobConcurrency, ls[|ls| - 1]);
    }
  }

  // ------------------------------------------------------------------ which steps leave what behind

  /** A step that ends a body without a word about its row: an Error, or a failure that cannot be recorded. */
  predicate EndsSilently(pc: Pc, fate: Fate, write: WriteFate) {
    match pc
    case Starting => fate.Dies?
    case Building => fate.Dies?
    case Rendered(_) => !write.Written? && write.dies
    case Stored(_) => fate.Dies?
    case Cleaned => !TakesEffect(fate)
    case _ => false
  }

  /** A step that leaves a file without a successful row: a partial write, an Error after the write, or a failed delete. */
  predicate LeavesBehind(pc: Pc, fate: Fate, write: WriteFate) {
    match pc
    case Rendered(_) => write.Partly?
    case Stored(_) => fate.Dies?
    case Failing(stored) => stored && !TakesEffect(fate)
    case _ => false
  }

  predicate WorksOn(s: State, id: string, l: Label) {
    s.up && l.Work? && l.id == id && id in s.running && id in s.rows
  }

  /** The row of `id` is inserted, but its submitter is told that it is not. */
  predicate StraysAt(s: State, id: string, l: Label) {
    && s.up && l.Insert? && l.fate.Unacked?
    && s.holder.Some? && !s.holder.value.inserted && s.holder.value.id == id && id !in s.rows
  }

  /** The step leaves the open row of `id` to nobody: its body ends, or it will never have one. */
  predicate AbandonsAt(s: State, id: string, l: Label) {
    || (WorksOn(s, id, l) && !Terminal(s.rows[id].status) && EndsSilently(s.running[id], l.fate, l.write))
    || StraysAt(s, id, l)
  }

  /** The step leaves the file of `id` behind: a step of its body, or a crash before the file could be vouched for or deleted. */
  predicate LeavesAt(s: State, id: string, l: Label) {
    || (WorksOn(s, id, l) && LeavesBehind(s.running[id], l.fate, l.write))
    || (s.up && l.Crash? && id in s.running && AtStake(s.running[id]))
  }

  /** The success of `id` is recorded, and an exception follows. */
  predicate UnacksAt(s: State, id: string, l: Label) {
    WorksOn(s, id, l) && s.running[id].Stored? && l.fate.Unacked?
  }

  /** After label `i` neither a crash nor a startup sweep took place. */
  ghost predicate Undisturbed(jobConcurrency: nat, ls: seq<Label>, i: nat) {
    forall j :: i < j < |ls| ==> !ClearsOpenMarks(Run(INITIAL, jobConcurrency, ls[..j]), jobConcurrency, ls[j])
  }

  predicate ClearsOpenMarks(s: State, jobConcurrency: nat, l: Label) {
    Enabled(s, jobConcurrency, l) && (l.Crash? || l.Reconcile?)
  }

  /** Some step of the run left a file of `id`. */
  ghost predicate LeftAFile(jobConcurrency: nat, ls: seq<Label>, id: string) {
    exists i: nat :: i < |ls| && LeavesAt(Run(INITIAL, jobConcurrency, ls[..i]), id, ls[i])
  }

  ghost predicate LostAnAck(jobConcurrency: nat, ls: seq<Label>, id: string) {
    exists i: nat :: i < |ls| && UnacksAt(Run(INITIAL, jobConcurrency, ls[..i]), id, ls[i])
  }

  /** Since its last crash and its last sweep the run took a step that abandoned the row of `id`. */
  ghost predicate LeftOpen(jobConcurrency: nat, ls: seq<Label>, id: string) {
    exists i: nat :: i < |ls| && AbandonsAt(Run(INITIAL, jobConcurrency, ls[..i]), id, ls[i]) && Undisturbed(jobConcurrency, ls, i)
  }

  lemma BodyMarks(id: string, b: Body, fate: Fate, write: WriteFate, bytes: Bytes)
    ensures var c := BodyStep(id, b, fate, write, bytes);
            && (c.abandoned <==> b.abandoned || (!Terminal(b.row.status) && EndsSilently(b.pc, fate, write)))
            && (c.leftover <==> b.leftover || LeavesBehind(b.pc, fate, write))
            && (c.unacked <==> b.unacked || (b.pc.Stored? && fate.Unacked?))
  {
  }

  /** What one step does to the three marks of one job. */
  ghost predicate MarksMove(s: State, t: State, jobConcurrency: nat, l: Label, id: string) {
    && (id in t.leftover <==> LeavesAt(s, id, l) || id in s.leftover)
    && (id in t.unacked <==> UnacksAt(s, id, l) || id in s.unacked)
    && (id in t.abandoned <==> AbandonsAt(s, id, l) || (id in s.abandoned && !ClearsOpenMarks(s, jobConcurrency, l)))
  }

  lemma WorkMarks(s: State, jobConcurrency: nat, l: Label, id: string)
    requires l.Work? && s.up && l.id in s.running && l.id in s.rows
    ensures MarksMove(s, WorkStep(s, l.id, l.fate, l.write, l.bytes), jobConcurrency, l, id)
  {
    if s.running[l.id] != Finishing {
      BodyMarks(l.id, BodyOf(s, l.id), l.fate, l.write, l.bytes);
    }
  }

  lemma SubmitMarks(s: State, jobConcurrency: nat, l: Label, id: string)
    requires Gated(s) && Placed(s) && Enabled(s, jobConcurrency, l) && (l.Insert? || l.Launch?)
    ensures MarksMove(s, SubmitStep(s, l), jobConcurrency, l, id)
  {
    if l.Insert? {
      InsertSteps(s, l.fate);
    }
  }

  /** A crash strands files and clears the marks on open rows, as a sweep does; no other step touches a mark. */
  lemma RestMarks(s: State, jobConcurrency: nat, l: Label, id: string)
    requires Enabled(s, jobConcurrency, l) && !l.Work? && !l.Insert? && !l.Launch?
    ensures MarksMove(s, Next(s, jobConcurrency, l), jobConcurrency, l, id)
  {
    match l
    case Boot =>
    case Reconcile => assert Next(s, jobConcurrency, l) == Sweep(s);
    case Acquire(_, _) =>
    case StopAdmission =>
    case ShutDown =>
    case ForceStop =>
    case Start =>
    case Crash => assert Next(s, jobConcurrency, l) == Down(s);
  }

  lemma MarksStep(s: State, jobConcurrency: nat, l: Label, id: string)
    requires Gated(s) && Placed(s)
    ensures MarksMove(s, Next(s, jobConcurrency, l), jobConcurrency, l, id)
  {
    if Enabled(s, jobConcurrency, l) {
      if l.Work? {
        WorkMarks(s, jobConcurrency, l, id);
      } else if l.Insert? || l.Launch? {
        SubmitSteps(s, jobConcurrency, l);
        SubmitMarks(s, jobConcurrency, l, id);
      } else {
        RestMarks(s, jobConcurrency, l, id);
      }
    }
  }

  lemma PrefixesGrow(jobConcurrency: nat, init: seq<Label>, l: Label)
    ensures var ls := init + [l];
            && ls[..|init|] == init && ls[|init|] == l
            && forall i: nat :: i < |init| ==> ls[..i] == init[..i] && ls[i] == init[i]
  {
  }

  lemma UndisturbedGrows(jobConcurrency: nat, init: seq<Label>, l: Label, i: nat)
    requires i < |init|
    ensures Undisturbed(jobConcurrency, init + [l], i) <==>
              Undisturbed(jobConcurrency, init, i) && !ClearsOpenMarks(Run(INITIAL, jobConcurrency, init), jobConcurrency, l)
  {
    var ls, n := init + [l], |init|;
    PrefixesGrow(jobConcurrency, init, l);
    if Undisturbed(jobConcurrency, ls, i) {
      forall j | i < j < n
        ensures !ClearsOpenMarks(Run(INITIAL, jobConcurrency, init[..j]), jobConcurrency, init[j])
      {
        assert ls[j] == init[j] && ls[..j] == init[..j];
      }
    }
  }

  lemma LeftAFileStep(jobConcurrency: nat, init: seq<Label>, l: Label, id: string)
    ensures LeftAFile(jobConcurrency, init + [l], id) <==>
              LeavesAt(Run(INITIAL, jobConcurrency, init), id, l) || LeftAFile(jobConcurrency, init, id)
    ensures LostAnAck(jobConcurrency, init + [l], id) <==>
              UnacksAt(Run(INITIAL, jobConcurrency, init), id, l) || LostAnAck(jobConcurrency, init, id)
  {
    PrefixesGrow(jobConcurrency, init, l);
  }

  lemma LeftOpenStep(jobConcurrency: nat, init: seq<Label>, l: Label, id: string)
    ensures LeftOpen(jobConcurrency, init + [l], id) <==>
              || AbandonsAt(Run(INITIAL, jobConcurrency, init), id, l)
              || (LeftOpen(jobConcurrency, init, id) && !ClearsOpenMarks(Run(INITIAL, jobConcurrency, init), jobConcurrency, l))
  {
    PrefixesGrow(jobConcurrency, init, l);
    assert Undisturbed(jobConcurrency, init + [l], |init|);
    forall i: nat | i < |init| {
      UndisturbedGrows(jobConcurrency, init, l, i);
    }
  }

  /** The three marks are what the labels say. */
  lemma {:induction false} MarksAreReadOffTheLabels(jobConcurrency: nat, ls: seq<Label>, id: string)
    ensures id in Run(INITIAL, jobConcurrency, ls).leftover <==> LeftAFile(jobConcurrency, ls, id)
    ensures id in Run(INITIAL, jobConcurrency, ls).unacked <==> LostAnAck(jobConcurrency, ls, id)
    ensures id in Run(INITIAL, jobConcurrency, ls).abandoned <==> LeftOpen(jobConcurrency, ls, id)
    decreases |ls|
  {
    if ls != [] {
      var init, l := ls[..|ls| - 1], ls[|ls| - 1];
      MarksAreReadOffTheLabels(jobConcurrency, init, id);
      AdmissionIsAtomicWithShutdown(jobConcurrency, init);
      MarksStep(Run(INITIAL, jobConcurrency, init), jobConcurrency, l, id);
      LeftAFileStep(jobConcurrency, init, l, id);
      LeftOpenStep(jobConcurrency, init, l, id);
      assert ls == init + [l];
    }
  }

  // ------------------------------------------------------------------ what the invariants give

  /**
    Why a row is open, in any reachable state: its job is waiting, running or being submitted; or a step
    left it to nobody; or its task went with the forced stop; or it is an earlier instance's and the
    startup reconciliation is still to come.
   */
  lemma OpenRowsHaveATask(jobConcurrency: nat, ls: seq<Label>, id: string)
    requires id in Run(INITIAL, jobConcurrency, ls).rows && !Terminal(Run(INITIAL, jobConcurrency, ls).rows[id].status)
    ensures var s := Run(INITIAL, jobConcurrency, ls);
            || id in s.queue || id in s.running || id in Held(s)
            || LeftOpen(jobConcurrency, ls, id)
            || (id in s.mine && id !in s.finished && s.executor == Killed)
            || (id !in s.mine && !s.reconciled)
  {
    JobsStayGood(jobConcurrency, ls);
    MarksAreReadOffTheLabels(jobConcurrency, ls, id);
    assert JobOk(Run(INITIAL, jobConcurrency, ls), id);
  }

  /** A body that is over left its row open exactly when it took one of the steps that abandon a row. */
  lemma FinishedRowsAreTerminalIff(jobConcurrency: nat, ls: seq<Label>, id: string)
    requires id in Run(INITIAL, jobConcurrency, ls).finished
    ensures id in Run(INITIAL, jobConcurrency, ls).rows
    ensures Terminal(Run(INITIAL, jobConcurrency, ls).rows[id].status) <==> !LeftOpen(jobConcurrency, ls, id)
  {
    JobsStayGood(jobConcurrency, ls);
    AdmissionIsAtomicWithShutdown(jobConcurrency, ls);
    MarksAreReadOffTheLabels(jobConcurrency, ls, id);
    assert JobOk(Run(INITIAL, jobConcurrency, ls), id);
  }

  /**
    In any reachable state, across crashes and restarts, the file of every job with no body at work is
    on the volume exactly when its row succeeded, and not through an unacknowledged success, or some
    step of the run left it there. A succeeded row records its path and, while it is there, its size.
   */
  lemma ArtifactsAgreeWithRows(jobConcurrency: nat, ls: seq<Label>, id: string)
    requires var s := Run(INITIAL, jobConcurrency, ls); id in s.rows && id !in s.running
    ensures var s := Run(INITIAL, jobConcurrency, ls);
            && (FileOf(s, id) in s.files <==>
                  || (s.rows[id].status == Succeeded && !LostAnAck(jobConcurrency, ls, id))
                  || LeftAFile(jobConcurrency, ls, id))
            && (s.rows[id].status == Succeeded ==> s.rows[id].artifactPath == Some(FileOf(s, id)))
            && (s.rows[id].status == Succeeded && FileOf(s, id) in s.files ==>
                  s.rows[id].artifactBytes == Some(|s.files[FileOf(s, id)]|))
  {
    JobsStayGood(jobConcurrency, ls);
    MarksAreReadOffTheLabels(jobConcurrency, ls, id);
    assert JobOk(Run(INITIAL, jobConcurrency, ls), id);
  }

  /**
    What a run must not do: leave an inserted row unlaunched, write part of a file, end a body in an
    Error, follow a recorded success with an exception, fail to delete a stored file or to record a
    failure, or crash while a file is at stake. Everything else may fail at any step.
   */
  predicate CleansUp(s: State, l: Label) {
    && (l.Insert? ==> !l.fate.Unacked?)
    && (l.Work? && l.id in s.running ==>
          && !l.fate.Dies? && !l.write.Partly? && (l.write.NotCreated? ==> !l.write.dies)
          && (s.running[l.id].Stored? ==> !l.fate.Unacked?)
          && (s.running[l.id] == Failing(true) || s.running[l.id] == Cleaned ==> TakesEffect(l.fate)))
    && (l.Crash? ==> Stranded(s) == {})
  }

  ghost predicate CleanRun(jobConcurrency: nat, ls: seq<Label>) {
    forall i :: 0 <= i < |ls| ==> CleansUp(Run(INITIAL, jobConcurrency, ls[..i]), ls[i])
  }

  lemma CleanStep(s: State, l: Label, id: string)
    requires CleansUp(s, l)
    ensures !LeavesAt(s, id, l) && !UnacksAt(s, id, l) && !AbandonsAt(s, id, l)
  {
    if l.Crash? && id in s.running {
      assert AtStake(s.running[id]) ==> id in Stranded(s);
    }
  }

  lemma CleanRunLeavesNothing(jobConcurrency: nat, ls: seq<Label>, id: string)
    requires CleanRun(jobConcurrency, ls)
    ensures !LeftAFile(jobConcurrency, ls, id) && !LostAnAck(jobConcurrency, ls, id) && !LeftOpen(jobConcurrency, ls, id)
  {
    forall i: nat | i < |ls|
      ensures !LeavesAt(Run(INITIAL, jobConcurrency, ls[..i]), id, ls[i])
      ensures !UnacksAt(Run(INITIAL, jobConcurrency, ls[..i]), id, ls[i])
      ensures !AbandonsAt(Run(INITIAL, jobConcurrency, ls[..i]), id, ls[i])
    {
      CleanStep(Run(INITIAL, jobConcurrency, ls[..i]), ls[i], id);
    }
  }

  /**
    In such a run nothing is ever stranded: the file of every job with no body at work exists exactly
    when its row succeeded, every body that is over left a terminal row, and until the forced stop every
    open row of a reconciled instance has a task.
   */
  lemma CleanRunsStrandNothing(jobConcurrency: nat, ls: seq<Label>, id: string)
    requires CleanRun(jobConcurrency, ls) && id in Run(INITIAL, jobConcurrency, ls).rows
    ensures var s := Run(INITIAL, jobConcurrency, ls);
            && (id !in s.running ==> (FileOf(s, id) in s.files <==> s.rows[id].status == Succeeded))
            && (id in s.finished ==> Terminal(s.rows[id].status))
            && (s.reconciled && s.executor != Killed && !Terminal(s.rows[id].status) ==>
                  id in s.queue || id in s.running || id in Held(s))
  {
    CleanRunLeavesNothing(jobConcurrency, ls, id);
    if id !in Run(INITIAL, jobConcurrency, ls).running {
      ArtifactsAgreeWithRows(jobConcurrency, ls, id);
    }
    if id in Run(INITIAL, jobConcurrency, ls).finished {
      FinishedRowsAreTerminalIff(jobConcurrency, ls, id);
    }
    if !Terminal(Run(INITIAL, jobConcurrency, ls).rows[id].status) {
      OpenRowsHaveATask(jobConcurrency, ls, id);
    }
  }

  /** Once an instance has reconciled, no row of an earlier instance is open. */
  lemma EarlierRowsAreTerminal(jobConcurrency: nat, ls: seq<Label>, id: string)
    requires var s := Run(INITIAL, jobConcurrency, ls); s.reconciled && id in s.rows && id !in s.mine
    ensures Terminal(Run(INITIAL, jobConcurrency, ls).rows[id].status)
  {
    JobsStayGood(jobConcurrency, ls);
    AdmissionIsAtomicWithShutdown(jobConcurrency, ls);
    assert JobOk(Run(INITIAL, jobConcurrency, ls), id);
  }

  // ------------------------------------------------------------------ how a status moves

  /**
    Something may still be done about the row of `id`: its job waits or is about to, its body has not
    reached a catch branch, or its catch branch is about to fail a row that already succeeded.
   */
  predicate TaskToCome(s: State, id: string)
    requires id in s.rows
  {
    || id in s.queue || id in Held(s)
    || (id in s.running && (BeforeCatch(s.running[id]) || (s.running[id] != Finishing && s.rows[id].status == Succeeded)))
  }

  /** The row is terminal and nothing is left to do about it. */
  predicate Done(s: State, id: string)
    requires id in s.rows
  {
    Terminal(s.rows[id].status) && !TaskToCome(s, id)
  }

  /** Nothing moved that was done; and what moved, moved along an edge or was terminal with a task to come. */
  ghost predicate MovesRight(s: State, t: State, id: string)
    requires id in s.rows
  {
    && id in t.rows
    && (Done(s, id) ==> t.rows[id].status == s.rows[id].status && Done(t, id))
    && (StatusEdge(s.rows[id].status, t.rows[id].status) || (Terminal(s.rows[id].status) && TaskToCome(s, id)))
  }

  lemma BodyMovesRight(id: string, b: Body, fate: Fate, write: WriteFate, bytes: Bytes)
    requires BodyOk(id, b) && b.pc != Finishing
    ensures var c := BodyStep(id, b, fate, write, bytes);
            && (StatusEdge(b.row.status, c.row.status) || (Terminal(b.row.status) && (BeforeCatch(b.pc) || b.row.status == Succeeded)))
            && (!BeforeCatch(b.pc) && b.row.status == Failed ==> c.row.status == Failed && !BeforeCatch(c.pc))
  {
    match b.pc
    case Starting =>
    case Building =>
    case Rendered(_) =>
    case Stored(_) =>
    case Failing(_) =>
    case Cleaned =>
    case Finishing =>
  }

  /** The row a body works on. */
  lemma OwnRowMovesRight(s: State, id: string, fate: Fate, write: WriteFate, bytes: Bytes)
    requires Placed(s) && Good(s) && id in s.running && id in s.rows && s.running[id] != Finishing
    ensures MovesRight(s, WorkStep(s, id, fate, write, bytes), id)
  {
    var b := BodyOf(s, id);
    assert JobOk(s, id);
    BodyMovesRight(id, b, fate, write, bytes);
    OwnRowIs(s, id, BodyStep(id, b, fate, write, bytes));
  }

  lemma OwnRowIs(s: State, id: string, c: Body)
    requires id in s.running && id in s.rows
    ensures var t := WriteBack(s, id, c);
            id in t.rows && t.rows[id] == c.row && id in t.running && t.running[id] == c.pc && t.queue == s.queue && Held(t) == Held(s)
  {
  }

  /** Everybody else's row, and the own one in the finally block. */
  lemma FrameMovesRight(s: State, t: State, w: string, id: string)
    requires WorkFrame(s, t, w) && id in s.rows && (id == w ==> s.running[w] == Finishing && t.rows[w] == s.rows[w])
    ensures MovesRight(s, t, id)
  {
  }

  lemma WorkMovesRight(s: State, w: string, fate: Fate, write: WriteFate, bytes: Bytes, id: string)
    requires Placed(s) && Good(s) && w in s.running && w in s.rows && id in s.rows
    ensures MovesRight(s, WorkStep(s, w, fate, write, bytes), id)
  {
    if id == w && s.running[w] != Finishing {
      OwnRowMovesRight(s, id, fate, write, bytes);
    } else {
      WorkKeepsFrame(s, w, fate, write, bytes);
      FrameMovesRight(s, WorkStep(s, w, fate, write, bytes), w, id);
    }
  }

  lemma SubmitMovesRight(s: State, jobConcurrency: nat, l: Label, id: string)
    requires Admission(s, jobConcurrency) && Enabled(s, jobConcurrency, l) && (l.Insert? || l.Launch?) && id in s.rows
    ensures MovesRight(s, SubmitStep(s, l), id)
  {
    if l.Insert? {
      InsertSteps(s, l.fate);
    } else {
      LaunchKeepsAdmission(s, jobConcurrency);
    }
  }

  lemma RestMovesRight(s: State, jobConcurrency: nat, l: Label, id: string)
    requires Admission(s, jobConcurrency) && Enabled(s, jobConcurrency, l) && id in s.rows
    requires !l.Work? && !l.Insert? && !l.Launch?
    ensures MovesRight(s, Next(s, jobConcurrency, l), id)
  {
    match l
    case Boot =>
    case Reconcile => assert Next(s, jobConcurrency, l) == Sweep(s);
    case Acquire(_, _) =>
    case StopAdmission =>
    case ShutDown =>
    case ForceStop =>
    case Start => assert s.queue[0] in s.queue;
    case Crash => assert Next(s, jobConcurrency, l) == Down(s);
  }

  /** One step, whichever. */
  lemma StepMovesRight(s: State, jobConcurrency: nat, l: Label, id: string)
    requires Admission(s, jobConcurrency) && Good(s) && id in s.rows
    ensures MovesRight(s, Next(s, jobConcurrency, l), id)
  {
    if Enabled(s, jobConcurrency, l) {
      if l.Work? {
        WorkMovesRight(s, l.id, l.fate, l.write, l.bytes, id);
      } else if l.Insert? || l.Launch? {
        SubmitSteps(s, jobConcurrency, l);
        SubmitMovesRight(s, jobConcurrency, l, id);
      } else {
        RestMovesRight(s, jobConcurrency, l, id);
      }
    }
  }

  /** The startup sweep fails the open row of `id` while there is still something to come for it. */
  predicate SweepsAliveAt(s: State, jobConcurrency: nat, id: string, l: Label) {
    Enabled(s, jobConcurrency, l) && l.Reconcile? && id in s.rows && !Terminal(s.rows[id].status) && TaskToCome(s, id)
  }

  /** The two ways in which a row becomes terminal too early. */
  predicate TooEarlyAt(s: State, jobConcurrency: nat, id: string, l: Label) {
    SweepsAliveAt(s, jobConcurrency, id, l) || UnacksAt(s, id, l)
  }

  ghost predicate TooEarly(jobConcurrency: nat, ls: seq<Label>, id: string) {
    exists i: nat :: i < |ls| && TooEarlyAt(Run(INITIAL, jobConcurrency, ls[..i]), jobConcurrency, id, ls[i])
  }

  lemma TooEarlyStep(jobConcurrency: nat, init: seq<Label>, l: Label, id: string)
    ensures TooEarly(jobConcurrency, init + [l], id) <==>
              TooEarlyAt(Run(INITIAL, jobConcurrency, init), jobConcurrency, id, l) || TooEarly(jobConcurrency, init, id)
  {
    PrefixesGrow(jobConcurrency, init, l);
  }

  /** A terminal row with a task to come. */
  ghost predicate Premature(s: State, id: string) {
    id in s.rows && Terminal(s.rows[id].status) && TaskToCome(s, id)
  }

  lemma BodyTurnsTerminal(id: string, b: Body, fate: Fate, write: WriteFate, bytes: Bytes)
    requires !Terminal(b.row.status) && b.pc != Finishing
    ensures var c := BodyStep(id, b, fate, write, bytes);
            Terminal(c.row.status) ==> c.pc == Finishing || (b.pc.Stored? && fate.Unacked?)
  {
    match b.pc
    case Starting =>
    case Building =>
    case Rendered(_) =>
    case Stored(_) =>
    case Failing(_) =>
    case Cleaned =>
    case Finishing =>
  }

  /** The row a body works on, if it was open. */
  lemma OwnRowPremature(s: State, l: Label, id: string)
    requires WorksOn(s, id, l) && !Terminal(s.rows[id].status) && id !in s.queue && id !in Held(s)
    requires Premature(WorkStep(s, id, l.fate, l.write, l.bytes), id)
    ensures UnacksAt(s, id, l)
  {
    if s.running[id] != Finishing {
      var c := BodyStep(id, BodyOf(s, id), l.fate, l.write, l.bytes);
      BodyTurnsTerminal(id, BodyOf(s, id), l.fate, l.write, l.bytes);
      OwnRowIs(s, id, c);
    }
  }

  lemma WorkPremature(s: State, jobConcurrency: nat, l: Label, id: string)
    requires Admission(s, jobConcurrency) && Enabled(s, jobConcurrency, l) && l.Work? && id in s.rows
    requires !Terminal(s.rows[id].status) && Premature(WorkStep(s, l.id, l.fate, l.write, l.bytes), id)
    ensures UnacksAt(s, id, l)
  {
    if l.id == id {
      OwnRowPremature(s, l, id);
    } else {
      WorkKeepsFrame(s, l.id, l.fate, l.write, l.bytes);
    }
  }

  lemma SubmitPremature(s: State, jobConcurrency: nat, l: Label, id: string)
    requires Admission(s, jobConcurrency) && Enabled(s, jobConcurrency, l) && (l.Insert? || l.Launch?)
    requires Premature(SubmitStep(s, l), id)
    ensures id in s.rows && Terminal(s.rows[id].status)
  {
    if l.Insert? {
      InsertSteps(s, l.fate);
    }
  }

  lemma RestPremature(s: State, jobConcurrency: nat, l: Label, id: string)
    requires Enabled(s, jobConcurrency, l) && !l.Work? && !l.Insert? && !l.Launch?
    requires Premature(Next(s, jobConcurrency, l), id)
    ensures id in s.rows
    ensures Terminal(s.rows[id].status) || SweepsAliveAt(s, jobConcurrency, id, l)
  {
    match l
    case Boot =>
    case Reconcile => assert Next(s, jobConcurrency, l) == Sweep(s);
    case Acquire(_, _) =>
    case StopAdmission =>
    case ShutDown =>
    case ForceStop =>
    case Start =>
    case Crash => assert Next(s, jobConcurrency, l) == Down(s);
  }

  /** An open row becomes premature only by one of the two ways. */
  lemma OpenTurnsPremature(s: State, jobConcurrency: nat, l: Label, id: string)
    requires Admission(s, jobConcurrency) && (id in s.rows ==> !Terminal(s.rows[id].status))
    requires Premature(Next(s, jobConcurrency, l), id)
    ensures TooEarlyAt(s, jobConcurrency, id, l)
  {
    if Enabled(s, jobConcurrency, l) {
      if l.Work? {
        WorkKeepsFrame(s, l.id, l.fate, l.write, l.bytes);
        WorkPremature(s, jobConcurrency, l, id);
      } else if l.Insert? || l.Launch? {
        SubmitSteps(s, jobConcurrency, l);
        SubmitPremature(s, jobConcurrency, l, id);
      } else {
        RestPremature(s, jobConcurrency, l, id);
      }
    }
  }

  /** A row that was not premature becomes so only by one of the two ways. */
  lemma PrematureStep(s: State, jobConcurrency: nat, l: Label, id: string)
    requires Admission(s, jobConcurrency) && Good(s) && !Premature(s, id) && Premature(Next(s, jobConcurrency, l), id)
    ensures TooEarlyAt(s, jobConcurrency, id, l)
  {
    if id in s.rows && Terminal(s.rows[id].status) {
      StepMovesRight(s, jobConcurrency, l, id);
    } else {
      OpenTurnsPremature(s, jobConcurrency, l, id);
    }
  }

  lemma PrematureAtLast(jobConcurrency: nat, init: seq<Label>, l: Label, id: string)
    requires !Premature(Run(INITIAL, jobConcurrency, init), id) && Premature(Run(INITIAL, jobConcurrency, init + [l]), id)
    ensures TooEarly(jobConcurrency, init + [l], id)
  {
    AdmissionIsAtomicWithShutdown(jobConcurrency, init);
    JobsStayGood(jobConcurrency, init);
    RunSnoc(jobConcurrency, init, l);
    PrematureStep(Run(INITIAL, jobConcurrency, init), jobConcurrency, l, id);
    TooEarlyStep(jobConcurrency, init, l, id);
  }

  /** A terminal row has something to come only if something happened too early to it. */
  lemma {:induction false} PrematureHasACause(jobConcurrency: nat, ls: seq<Label>, id: string)
    requires Premature(Run(INITIAL, jobConcurrency, ls), id)
    ensures TooEarly(jobConcurrency, ls, id)
    decreases |ls|
  {
    if ls != [] {
      var init, l := ls[..|ls| - 1], ls[|ls| - 1];
      assert ls == init + [l];
      if Premature(Run(INITIAL, jobConcurrency, init), id) {
        PrematureHasACause(jobConcurrency, init, id);
        TooEarlyStep(jobConcurrency, init, l, id);
      } else {
        PrematureAtLast(jobConcurrency, init, l, id);
      }
    }
  }

  /** What is done stays done, through any steps, crashes and restarts. */
  lemma {:induction false} DoneStays(s: State, jobConcurrency: nat, more: seq<Label>, id: string)
    requires Admission(s, jobConcurrency) && Good(s) && id in s.rows && Done(s, id)
    ensures var t := Run(s, jobConcurrency, more);
            Admission(t, jobConcurrency) && Good(t) && id in t.rows && t.rows[id].status == s.rows[id].status && Done(t, id)
    decreases |more|
  {
    if more != [] {
      var init, l := more[..|more| - 1], more[|more| - 1];
      DoneStays(s, jobConcurrency, init, id);
      var t := Run(s, jobConcurrency, init);
      StepKeepsAdmission(t, jobConcurrency, l);
      StepKeepsGood(t, jobConcurrency, l);
      StepMovesRight(t, jobConcurrency, l, id);
    }
  }

  lemma {:induction false} RunConcat(s: State, jobConcurrency: nat, a: seq<Label>, b: seq<Label>)
    ensures Run(s, jobConcurrency, a + b) == Run(Run(s, jobConcurrency, a), jobConcurrency, b)
    decreases |b|
  {
    if b == [] {
      assert a + b == a;
    } else {
      assert (a + b)[..|a + b| - 1] == a + b[..|b| - 1];
      RunConcat(s, jobConcurrency, a, b[..|b| - 1]);
    }
  }

  /** The status of one row over one step of a run in which nothing happened too early to it. */
  lemma StatusStep(jobConcurrency: nat, ls: seq<Label>, l: Label, id: string)
    requires id in Run(INITIAL, jobConcurrency, ls).rows && !TooEarly(jobConcurrency, ls, id)
    ensures id in Run(INITIAL, jobConcurrency, ls + [l]).rows
    ensures var a, b := Run(INITIAL, jobConcurrency, ls).rows[id].status, Run(INITIAL, jobConcurrency, ls + [l]).rows[id].status;
            StatusEdge(a, b) && (Terminal(a) ==> a == b)
  {
    RunSnoc(jobConcurrency, ls, l);
    JobsStayGood(jobConcurrency, ls);
    AdmissionIsAtomicWithShutdown(jobConcurrency, ls);
    if Premature(Run(INITIAL, jobConcurrency, ls), id) {
      PrematureHasACause(jobConcurrency, ls, id);
    }
    StepMovesRight(Run(INITIAL, jobConcurrency, ls), jobConcurrency, l, id);
  }

  lemma TooEarlyPrefix(jobConcurrency: nat, ls: seq<Label>, more: seq<Label>, id: string)
    requires !TooEarly(jobConcurrency, ls + more, id)
    ensures !TooEarly(jobConcurrency, ls, id)
  {
    forall i: nat | i < |ls|
      ensures !TooEarlyAt(Run(INITIAL, jobConcurrency, ls[..i]), jobConcurrency, id, ls[i])
    {
      assert (ls + more)[..i] == ls[..i] && (ls + more)[i] == ls[i];
    }
  }

  /**
    Across crashes and restarts a status moves along the state machine's edges only, and a terminal
    status is final, unless the row was swept with a task to come or its success went unacknowledged.
   */
  lemma {:induction false} StatusMovesForward(jobConcurrency: nat, ls: seq<Label>, more: seq<Label>, id: string)
    requires !TooEarly(jobConcurrency, ls + more, id) && id in Run(INITIAL, jobConcurrency, ls).rows
    ensures id in Run(INITIAL, jobConcurrency, ls + more).rows
    ensures var a, b := Run(INITIAL, jobConcurrency, ls).rows[id].status, Run(INITIAL, jobConcurrency, ls + more).rows[id].status;
            && (Terminal(a) ==> a == b)
            && (a == Running ==> b != Pending)
            && (|more| == 1 ==> StatusEdge(a, b))
    decreases |more|
  {
    if more == [] {
      assert ls + more == ls;
    } else {
      var init, l := more[..|more| - 1], more[|more| - 1];
      assert ls + more == (ls + init) + [l];
      TooEarlyPrefix(jobConcurrency, ls + init, [l], id);
      StatusMovesForward(jobConcurrency, ls, init, id);
      StatusStep(jobConcurrency, ls + init, l, id);
      if |more| == 1 {
        assert ls + init == ls;
      }
    }
  }

  lemma RunSnoc(jobConcurrency: nat, ls: seq<Label>, l: Label)
    ensures Run(INITIAL, jobConcurrency, ls + [l]) == Next(Run(INITIAL, jobConcurrency, ls), jobConcurrency, l)
  {
    assert (ls + [l])[..|ls|] == ls;
  }

  // ------------------------------------------------------------------ the same body, run alone

  function FateAt(f: Faults, pc: Pc): Fate {
    match pc
    case Starting => f.markRunning
    case Building => f.render
    case Stored(_) => f.markSucceeded
    case Failing(_) => if f.deleteWorks then Works else Throws
    case Cleaned => if f.markFailedWorks then Works else Throws
    case _ => Works
  }

  function RunBody(id: string, b: Body, f: Faults, bytes: Bytes, steps: nat): Body
    decreases steps
  {
    if steps == 0 then b
    else RunBody(id, BodyStep(id, b, FateAt(f, b.pc), f.write, bytes), f, bytes, steps - 1)
  }

  lemma {:induction false} FinishedStays(id: string, b: Body, f: Faults, bytes: Bytes, steps: nat)
    requires b.pc == Finishing
    ensures RunBody(id, b, f, bytes, steps) == b
    decreases steps
  {
    if steps > 0 {
      FinishedStays(id, b, f, bytes, steps - 1);
    }
  }

  /** From a catch branch: the file goes if it was stored and can be deleted, the row fails if that can be recorded. */
  lemma CatchBranch(id: string, b: Body, f: Faults, bytes: Bytes, stored: bool, steps: nat)
    requires b.pc == Failing(stored) && steps >= 2
    ensures RunBody(id, b, f, bytes, steps) ==
            Body(if f.markFailedWorks then AsFailed(b.row, "failed") else b.row,
                 if stored && f.deleteWorks then None else b.file,
                 Finishing, b.abandoned || (!f.markFailedWorks && !Terminal(b.row.status)),
                 b.leftover || (stored && !f.deleteWorks), b.unacked)
  {
    var c := BodyStep(id, b, FateAt(f, b.pc), f.write, bytes);
    var d := BodyStep(id, c, FateAt(f, c.pc), f.write, bytes);
    FinishedStays(id, d, f, bytes, steps - 2);
  }

  ghost predicate MatchesRunJob(b: Body, f: Faults, bytes: Bytes) {
    && b.pc == Finishing
    && (b.row.status == Succeeded <==> AllWork(f) || (LosesAck(f) && !f.markFailedWorks))
    && (!Terminal(b.row.status) <==> Died(f) || (!AllWork(f) && !LosesAck(f) && !f.markFailedWorks))
    && (b.file.Some? <==> AllWork(f) || LeavesFile(f))
    && (AllWork(f) ==> b.file == Some(bytes))
    && (b.abandoned <==> !Terminal(b.row.status))
    && (b.leftover <==> LeavesFile(f))
    && (b.unacked <==> LosesAck(f))
  }

  lemma FallenMatches(id: string, b: Body, f: Faults, bytes: Bytes, fate: Fate, stored: bool, steps: nat)
    requires steps >= 2 && !AllWork(f) && !fate.Works? && !b.abandoned && (fate.Dies? <==> Died(f))
    requires if LosesAck(f) then b.row.status == Succeeded && b.unacked else !Terminal(b.row.status) && !b.unacked
    requires b.file.Some? <==> stored || b.leftover
    requires LeavesFile(f) <==> b.leftover || (stored && (fate.Dies? || !f.deleteWorks))
    requires !(stored && b.leftover)
    ensures MatchesRunJob(RunBody(id, Fallen(b, fate, stored), f, bytes, steps), f, bytes)
  {
    if fate.Dies? {
      FinishedStays(id, Fallen(b, fate, stored), f, bytes, steps);
    } else {
      CatchBranch(id, Fallen(b, fate, stored), f, bytes, stored, steps);
    }
  }

  lemma FromRendered(id: string, b: Body, f: Faults, bytes: Bytes)
    requires b == Body(AsRunning(NewRow(b.row.format)), None, Rendered(bytes), false, false, false) && ReachesWrite(f)
    ensures MatchesRunJob(RunBody(id, b, f, bytes, 4), f, bytes)
  {
    var c := BodyStep(id, b, Works, f.write, bytes);
    assert RunBody(id, b, f, bytes, 4) == RunBody(id, c, f, bytes, 3);
    if f.write.Written? {
      var d := BodyStep(id, c, f.markSucceeded, f.write, bytes);
      assert RunBody(id, c, f, bytes, 3) == RunBody(id, d, f, bytes, 2);
      if f.markSucceeded.Works? {
        FinishedStays(id, d, f, bytes, 2);
      } else {
        var done := AsSucceeded(c.row, FileName(id, c.row.format), |bytes|);
        FallenMatches(id, if LosesAck(f) then c.(row := done, unacked := true) else c, f, bytes, f.markSucceeded, true, 2);
      }
    } else {
      var content := if f.write.Partly? then Some(bytes[..if f.write.upTo < |bytes| then f.write.upTo else |bytes|]) else None;
      FallenMatches(id, b.(file := content, leftover := f.write.Partly?), f, bytes, if f.write.dies then Dies else Throws, false, 3);
    }
  }

  /** Six steps take a body from its start to its finally block, with the outcome `ReportService.RunJob` promises for the same faults. */
  lemma BodyMatchesRunJob(id: string, format: Format, f: Faults, bytes: Bytes)
    ensures MatchesRunJob(RunBody(id, Body(NewRow(format), None, Starting, false, false, false), f, bytes, 6), f, bytes)
  {
    var b := Body(NewRow(format), None, Starting, false, false, false);
    var c := BodyStep(id, b, f.markRunning, f.write, bytes);
    assert RunBody(id, b, f, bytes, 6) == RunBody(id, c, f, bytes, 5);
    if f.markRunning.Works? {
      var d := BodyStep(id, c, f.render, f.write, bytes);
      assert RunBody(id, c, f, bytes, 5) == RunBody(id, d, f, bytes, 4);
      if f.render.Works? {
        FromRendered(id, d, f, bytes);
      } else {
        FallenMatches(id, c, f, bytes, f.render, false, 4);
      }
    } else {
      FallenMatches(id, if f.markRunning.Unacked? then b.(row := AsRunning(b.row)) else b, f, bytes, f.markRunning, false, 5);
    }
  }
}
