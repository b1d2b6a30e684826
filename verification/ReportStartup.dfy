/**
  When a terminal status is final, what the startup reconciliation may meet, and runs that show what the
  failure cases look like.
 */
module ReportStartup {
  import opened Wrappers
  import opened ReportJobs
  import opened ReportEngine

  /** Whatever follows, crashes and restarts included, the status of `id` stays what it is. */
  ghost predicate Final(r: State, jobConcurrency: nat, id: string)
    requires id in r.rows
  {
    forall more :: StaysAt(r, jobConcurrency, more, id)
  }

  ghost predicate StaysAt(r: State, jobConcurrency: nat, more: seq<Label>, id: string)
    requires id in r.rows
  {
    var t := Run(r, jobConcurrency, more);
    id in t.rows && t.rows[id].status == r.rows[id].status
  }

  ghost predicate MovesAt(r: State, jobConcurrency: nat, more: seq<Label>, id: string)
    requires id in r.rows
  {
    var t := Run(r, jobConcurrency, more);
    id in t.rows && t.rows[id].status != r.rows[id].status
  }

  lemma RunOne(s: State, jobConcurrency: nat, l: Label)
    ensures Run(s, jobConcurrency, [l]) == Next(s, jobConcurrency, l)
  {
    assert [l][..0] == [];
  }

  /** One label, then the rest. */
  lemma RunFirst(s: State, jobConcurrency: nat, l: Label, rest: seq<Label>)
    ensures Run(s, jobConcurrency, [l] + rest) == Run(Next(s, jobConcurrency, l), jobConcurrency, rest)
  {
    RunConcat(s, jobConcurrency, [l], rest);
    RunOne(s, jobConcurrency, l);
  }

  // ------------------------------------------------------------------ bringing a task to its row

  /** Reachable as far as the lock, the pool and the tasks are concerned, in a living process. */
  ghost predicate Alive(s: State, jobConcurrency: nat) {
    Admission(s, jobConcurrency) && s.up
  }

  function Steady(id: string): Label {
    Work(id, Works, Written, [])
  }

  /** The quickest end of any body. */
  function Drop(id: string): Label {
    Work(id, Dies, NotCreated(true), [])
  }

  function StepsToEnd(pc: Pc): nat {
    match pc
    case Finishing => 0
    case Failing(_) => 2
    case _ => 1
  }

  lemma DropBody(id: string, b: Body)
    requires b.pc != Finishing
    ensures StepsToEnd(BodyStep(id, b, Dies, NotCreated(true), []).pc) < StepsToEnd(b.pc)
  {
  }

  lemma DropMoves(s: State, r: string)
    requires r in s.running && r in s.rows && s.running[r] != Finishing
    ensures var t := WorkStep(s, r, Dies, NotCreated(true), []);
            r in t.running && StepsToEnd(t.running[r]) < StepsToEnd(s.running[r])
  {
    DropBody(r, BodyOf(s, r));
  }

  lemma RunningHaveRows(s: State, jobConcurrency: nat, r: string)
    requires Admission(s, jobConcurrency) && r in s.running
    ensures r in s.rows
  {
  }

  /** One dropping step brings the body nearer to its end and touches no other job's row. */
  lemma DropStep(s: State, jobConcurrency: nat, r: string)
    requires Alive(s, jobConcurrency) && r in s.running
    ensures r in s.rows
    ensures var t := Next(s, jobConcurrency, Drop(r));
            && Alive(t, jobConcurrency) && WorkFrame(s, t, r)
            && (s.running[r] != Finishing ==> r in t.running && StepsToEnd(t.running[r]) < StepsToEnd(s.running[r]))
  {
    RunningHaveRows(s, jobConcurrency, r);
    WorkStepIs(s, jobConcurrency, r);
    StepKeepsAdmission(s, jobConcurrency, Drop(r));
    WorkKeepsFrame(s, r, Dies, NotCreated(true), []);
    if s.running[r] != Finishing {
      DropMoves(s, r);
    }
  }

  lemma WorkStepIs(s: State, jobConcurrency: nat, r: string)
    requires s.up && r in s.running && r in s.rows
    ensures Next(s, jobConcurrency, Drop(r)) == WorkStep(s, r, Dies, NotCreated(true), [])
  {
  }

  /** A running body can always be brought to its end, which frees its thread. */
  lemma {:induction false} FreeAThread(s: State, jobConcurrency: nat, r: string) returns (more: seq<Label>)
    requires Alive(s, jobConcurrency) && r in s.running
    ensures var t := Run(s, jobConcurrency, more);
            && Alive(t, jobConcurrency) && t.queue == s.queue && t.executor == s.executor
            && t.running.Keys == s.running.Keys - {r}
            && forall id :: id in s.rows && id != r ==> id in t.rows && t.rows[id] == s.rows[id]
    decreases StepsToEnd(s.running[r])
  {
    DropStep(s, jobConcurrency, r);
    var t := Next(s, jobConcurrency, Drop(r));
    if s.running[r] == Finishing {
      RunOne(s, jobConcurrency, Drop(r));
      more := [Drop(r)];
    } else {
      var rest := FreeAThread(t, jobConcurrency, r);
      RunFirst(s, jobConcurrency, Drop(r), rest);
      more := [Drop(r)] + rest;
    }
  }

  function StepsToMove(pc: Pc): nat {
    match pc
    case Building => 2
    case Rendered(_) => 1
    case _ => 0
  }

  lemma SteadyStep(s: State, jobConcurrency: nat, id: string)
    requires s.up && id in s.running && id in s.rows && BeforeCatch(s.running[id]) && s.rows[id].status == Failed
    ensures var t := Next(s, jobConcurrency, Steady(id));
            && t.up && id in t.running && id in t.rows
            && (if s.running[id].Starting? || s.running[id].Stored? then t.rows[id].status != Failed
                else BeforeCatch(t.running[id]) && t.rows[id].status == Failed && StepsToMove(t.running[id]) < StepsToMove(s.running[id]))
  {
  }

  /** A body before its catch branch can go on to change the status of its swept row. */
  lemma {:induction false} RunningRevives(s: State, jobConcurrency: nat, id: string) returns (more: seq<Label>)
    requires s.up && id in s.running && id in s.rows && BeforeCatch(s.running[id]) && s.rows[id].status == Failed
    ensures MovesAt(s, jobConcurrency, more, id)
    decreases StepsToMove(s.running[id])
  {
    SteadyStep(s, jobConcurrency, id);
    if s.running[id].Starting? || s.running[id].Stored? {
      RunOne(s, jobConcurrency, Steady(id));
      more := [Steady(id)];
    } else {
      var rest := RunningRevives(Next(s, jobConcurrency, Steady(id)), jobConcurrency, id);
      RunFirst(s, jobConcurrency, Steady(id), rest);
      more := [Steady(id)] + rest;
    }
  }

  lemma StartStep(s: State, jobConcurrency: nat)
    requires Alive(s, jobConcurrency) && s.queue != [] && |s.running| < jobConcurrency
    ensures var t := Next(s, jobConcurrency, Start);
            && Alive(t, jobConcurrency) && t.queue == s.queue[1..] && t.rows == s.rows
            && s.queue[0] in t.running && t.running[s.queue[0]] == Starting
  {
    StepKeepsAdmission(s, jobConcurrency, Start);
  }

  /** A catch branch goes on to fail a row that already succeeded. */
  lemma CatchFails(s: State, jobConcurrency: nat, id: string) returns (more: seq<Label>)
    requires s.up && id in s.running && id in s.rows && s.rows[id].status == Succeeded
    requires s.running[id].Failing? || s.running[id].Cleaned?
    ensures MovesAt(s, jobConcurrency, more, id)
  {
    var t := Next(s, jobConcurrency, Steady(id));
    if s.running[id].Cleaned? {
      CleanedFails(s, jobConcurrency, id);
      RunOne(s, jobConcurrency, Steady(id));
      more := [Steady(id)];
    } else {
      FailingCleans(s, jobConcurrency, id);
      CleanedFails(t, jobConcurrency, id);
      RunOne(t, jobConcurrency, Steady(id));
      RunFirst(s, jobConcurrency, Steady(id), [Steady(id)]);
      more := [Steady(id)] + [Steady(id)];
    }
  }

  lemma CleanedFails(s: State, jobConcurrency: nat, id: string)
    requires s.up && id in s.running && id in s.rows && s.running[id].Cleaned?
    ensures var t := Next(s, jobConcurrency, Steady(id)); id in t.rows && t.rows[id].status == Failed
  {
  }

  lemma FailingCleans(s: State, jobConcurrency: nat, id: string)
    requires s.up && id in s.running && id in s.rows && s.running[id].Failing?
    ensures var t := Next(s, jobConcurrency, Steady(id));
            t.up && id in t.running && id in t.rows && t.running[id] == Cleaned && t.rows[id].status == s.rows[id].status
  {
  }

  /** A queued task gets its turn, and then changes the status of its swept row. */
  lemma {:induction false} QueuedRevives(s: State, jobConcurrency: nat, i: nat) returns (more: seq<Label>)
    requires Alive(s, jobConcurrency) && i < |s.queue| && s.queue[i] in s.rows && s.rows[s.queue[i]].status == Failed
    ensures MovesAt(s, jobConcurrency, more, s.queue[i])
    decreases i, |s.running|
  {
    var id := s.queue[i];
    assert id in s.queue;
    if |s.running| < jobConcurrency {
      StartStep(s, jobConcurrency);
      var t, rest := Next(s, jobConcurrency, Start), [];
      if i == 0 {
        rest := RunningRevives(t, jobConcurrency, id);
      } else {
        assert t.queue[i - 1] == id;
        rest := QueuedRevives(t, jobConcurrency, i - 1);
      }
      RunFirst(s, jobConcurrency, Start, rest);
      more := [Start] + rest;
    } else {
      var r := SomeRunning(s);
      var free := FreeAThread(s, jobConcurrency, r);
      var t := Run(s, jobConcurrency, free);
      assert |t.running| == |t.running.Keys| && |s.running| == |s.running.Keys|;
      var rest := QueuedRevives(t, jobConcurrency, i);
      RunConcat(s, jobConcurrency, free, rest);
      more := free + rest;
    }
  }

  lemma SomeRunning(s: State) returns (r: string)
    requires |s.running| > 0
    ensures r in s.running
  {
    assert |s.running.Keys| == |s.running|;
    r :| r in s.running.Keys;
  }

  lemma HeldRevives(s: State, jobConcurrency: nat, id: string) returns (more: seq<Label>)
    requires Alive(s, jobConcurrency) && id in Held(s) && id in s.rows && s.rows[id].status == Failed
    ensures MovesAt(s, jobConcurrency, more, id)
  {
    var t := Next(s, jobConcurrency, Launch);
    StepKeepsAdmission(s, jobConcurrency, Launch);
    SubmitSteps(s, jobConcurrency, Launch);
    LaunchKeepsAdmission(s, jobConcurrency);
    var rest := QueuedRevives(t, jobConcurrency, |s.queue|);
    RunFirst(s, jobConcurrency, Launch, rest);
    more := [Launch] + rest;
  }

  // ------------------------------------------------------------------ final statuses

  /** A premature row can still be moved. */
  lemma PrematureMoves(s: State, jobConcurrency: nat, id: string) returns (more: seq<Label>)
    requires Admission(s, jobConcurrency) && Good(s) && Premature(s, id)
    ensures MovesAt(s, jobConcurrency, more, id)
  {
    assert JobOk(s, id);
    if id in s.queue {
      var i :| 0 <= i < |s.queue| && s.queue[i] == id;
      more := QueuedRevives(s, jobConcurrency, i);
    } else if id in Held(s) {
      more := HeldRevives(s, jobConcurrency, id);
    } else if BeforeCatch(s.running[id]) {
      assert BodyOk(id, BodyOf(s, id));
      more := RunningRevives(s, jobConcurrency, id);
    } else {
      more := CatchFails(s, jobConcurrency, id);
    }
  }

  lemma FinalIff(s: State, jobConcurrency: nat, id: string)
    requires Admission(s, jobConcurrency) && Good(s) && id in s.rows && Terminal(s.rows[id].status)
    ensures Final(s, jobConcurrency, id) <==> !TaskToCome(s, id)
  {
    if TaskToCome(s, id) {
      var more := PrematureMoves(s, jobConcurrency, id);
      assert !StaysAt(s, jobConcurrency, more, id);
    } else {
      forall more
        ensures StaysAt(s, jobConcurrency, more, id)
      {
        DoneStays(s, jobConcurrency, more, id);
      }
    }
  }

  /**
    In every reachable state a terminal status is final, through all that may follow, exactly when
    nothing is left to come for its row.
   */
  lemma StatusIsFinalIff(jobConcurrency: nat, ls: seq<Label>, id: string)
    requires var s := Run(INITIAL, jobConcurrency, ls); id in s.rows && Terminal(s.rows[id].status)
    ensures var s := Run(INITIAL, jobConcurrency, ls); Final(s, jobConcurrency, id) <==> !TaskToCome(s, id)
  {
    AdmissionIsAtomicWithShutdown(jobConcurrency, ls);
    JobsStayGood(jobConcurrency, ls);
    FinalIff(Run(INITIAL, jobConcurrency, ls), jobConcurrency, id);
  }

  lemma SweepKeepsTasks(s: State, id: string)
    requires id in s.rows
    ensures id in Sweep(s).rows && Terminal(Sweep(s).rows[id].status)
    ensures TaskToCome(Sweep(s), id) <==> TaskToCome(s, id)
  {
  }

  /**
    The startup reconciliation settles every row for good exactly when no row of its own instance has
    something to come. A submit that came earlier and is over by then does no harm.
   */
  lemma SweepIsFinalIff(jobConcurrency: nat, ls: seq<Label>)
    requires Enabled(Run(INITIAL, jobConcurrency, ls), jobConcurrency, Reconcile)
    ensures var s := Run(INITIAL, jobConcurrency, ls);
            (forall id :: id in s.rows ==> id in Sweep(s).rows && Final(Sweep(s), jobConcurrency, id))
            <==> (forall id :: id in s.rows ==> !TaskToCome(s, id))
  {
    var s := Run(INITIAL, jobConcurrency, ls);
    AdmissionIsAtomicWithShutdown(jobConcurrency, ls);
    JobsStayGood(jobConcurrency, ls);
    StepKeepsAdmission(s, jobConcurrency, Reconcile);
    SweepKeepsGood(s);
    forall id | id in s.rows
      ensures id in Sweep(s).rows && (Final(Sweep(s), jobConcurrency, id) <==> !TaskToCome(s, id))
    {
      SweepKeepsTasks(s, id);
      FinalIff(Sweep(s), jobConcurrency, id);
    }
  }

  lemma UnackedIsPremature(s: State, jobConcurrency: nat, id: string, l: Label)
    requires UnacksAt(s, id, l)
    ensures Premature(Next(s, jobConcurrency, l), id)
  {
    OwnRowIs(s, id, BodyStep(id, BodyOf(s, id), l.fate, l.write, l.bytes));
  }

  /** Each of the two ways in which a row becomes terminal too early can be followed by a run that moves it. */
  lemma TooEarlyMoves(jobConcurrency: nat, ls: seq<Label>, l: Label, id: string) returns (more: seq<Label>)
    requires TooEarlyAt(Run(INITIAL, jobConcurrency, ls), jobConcurrency, id, l)
    ensures var r := Run(INITIAL, jobConcurrency, ls + [l]);
            id in r.rows && Terminal(r.rows[id].status) && MovesAt(r, jobConcurrency, more, id)
  {
    var s := Run(INITIAL, jobConcurrency, ls);
    RunSnoc(jobConcurrency, ls, l);
    AdmissionIsAtomicWithShutdown(jobConcurrency, ls + [l]);
    JobsStayGood(jobConcurrency, ls + [l]);
    if UnacksAt(s, id, l) {
      UnackedIsPremature(s, jobConcurrency, id, l);
    } else {
      SweepKeepsTasks(s, id);
    }
    more := PrematureMoves(Run(INITIAL, jobConcurrency, ls + [l]), jobConcurrency, id);
  }

  // ------------------------------------------------------------------ runs that show the failure cases

  const UP := INITIAL.(up := true, accepting := true, executor := Open)

  const SUBMIT: seq<Label> := [Acquire("j", Csv), Insert(Works), Launch]

  /** Job "j" runs alone in a reconciled instance and stands at `b`. */
  ghost predicate Alone(s: State, b: Body) {
    && s.up && s.executor == Open && "j" in s.rows && "j" in s.running && BodyOf(s, "j") == b
  }

  lemma RunSubmit(s: State)
    ensures Run(s, 1, SUBMIT) == Next(Next(Next(s, 1, Acquire("j", Csv)), 1, Insert(Works)), 1, Launch)
  {
    assert SUBMIT == [Acquire("j", Csv)] + [Insert(Works)] + [Launch];
    RunConcat(s, 1, [Acquire("j", Csv)] + [Insert(Works)], [Launch]);
    RunConcat(s, 1, [Acquire("j", Csv)], [Insert(Works)]);
    RunOne(s, 1, Acquire("j", Csv));
    RunOne(Run(s, 1, [Acquire("j", Csv)]), 1, Insert(Works));
    RunOne(Run(s, 1, [Acquire("j", Csv)] + [Insert(Works)]), 1, Launch);
  }

  function Submitted(s: State): State {
    s.(rows := map["j" := NewRow(Csv)], queue := ["j"], mine := {"j"})
  }

  /** Three steps submit a first job. */
  lemma SubmitRuns(s: State)
    requires s == UP || s == UP.(reconciled := true)
    ensures Run(s, 1, SUBMIT) == Submitted(s)
  {
    RunSubmit(s);
    var held := s.(holder := Some(Holder("j", Csv, false)));
    assert Next(s, 1, Acquire("j", Csv)) == held;
    var inserted := held.(rows := map["j" := NewRow(Csv)], holder := Some(Holder("j", Csv, true)), mine := {"j"});
    assert Next(held, 1, Insert(Works)) == inserted;
    assert Next(inserted, 1, Launch) == Submitted(s);
  }

  lemma BootRuns()
    ensures Run(INITIAL, 1, [Boot]) == UP
  {
    RunOne(INITIAL, 1, Boot);
  }

  /** A submit before the startup reconciliation: the sweep fails a job that runs afterwards. */
  lemma EarlySubmitRevivesAFailedJob() returns (before: seq<Label>, after: seq<Label>)
    ensures var s, t := Run(INITIAL, 1, before), Run(INITIAL, 1, before + after);
            "j" in s.rows && s.rows["j"].status == Failed && "j" in t.rows && t.rows["j"].status != Failed
  {
    var early := [Boot] + SUBMIT;
    BootRuns();
    SubmitRuns(UP);
    RunConcat(INITIAL, 1, [Boot], SUBMIT);
    before := early + [Reconcile];
    RunSnoc(1, early, Reconcile);
    after := EarlyTail(early);
    RunConcat(INITIAL, 1, before, after);
  }

  lemma EarlyTail(early: seq<Label>) returns (after: seq<Label>)
    requires Run(INITIAL, 1, early) == Submitted(UP)
    ensures var r := Next(Run(INITIAL, 1, early), 1, Reconcile);
            "j" in r.rows && r.rows["j"].status == Failed && MovesAt(r, 1, after, "j")
  {
    var s := Run(INITIAL, 1, early);
    assert s.queue[0] == "j" && "j" in s.queue;
    AdmissionIsAtomicWithShutdown(1, early);
    JobsStayGood(1, early);
    StepKeepsAdmission(s, 1, Reconcile);
    SweepKeepsGood(s);
    after := PrematureMoves(Sweep(s), 1, "j");
  }

  lemma AdmittedJob() returns (ls: seq<Label>)
    ensures Alone(Run(INITIAL, 1, ls), Body(NewRow(Csv), None, Starting, false, false, false))
  {
    var l2 := [Boot] + [Reconcile];
    BootRuns();
    RunSnoc(1, [Boot], Reconcile);
    SweepOfNothing();
    SubmitRuns(UP.(reconciled := true));
    RunConcat(INITIAL, 1, l2, SUBMIT);
    ls := l2 + SUBMIT + [Start];
    RunSnoc(1, l2 + SUBMIT, Start);
    StartsAlone(Submitted(UP.(reconciled := true)));
  }

  lemma SweepOfNothing()
    ensures Next(UP, 1, Reconcile) == UP.(reconciled := true)
  {
  }

  lemma StartsAlone(s: State)
    requires s == Submitted(UP.(reconciled := true))
    ensures Alone(Next(s, 1, Start), Body(NewRow(Csv), None, Starting, false, false, false))
  {
    assert s.queue[1..] == [];
  }

  /** One working step of the job that runs alone. */
  lemma AloneStep(ls: seq<Label>, b: Body, fate: Fate, write: WriteFate, bytes: Bytes)
    requires Alone(Run(INITIAL, 1, ls), b) && b.pc != Finishing
    ensures Alone(Run(INITIAL, 1, ls + [Work("j", fate, write, bytes)]), BodyStep("j", b, fate, write, bytes))
  {
    var s, l := Run(INITIAL, 1, ls), Work("j", fate, write, bytes);
    RunSnoc(1, ls, l);
    BodyKeepsFormat("j", b, fate, write, bytes);
    BodyStepKeepsMarks("j", b, fate, write, bytes);
    WriteBackReadsBack(s, "j", BodyStep("j", b, fate, write, bytes));
  }

  /** The finally block of the job that runs alone. */
  lemma AloneFinishes(ls: seq<Label>, b: Body)
    requires Alone(Run(INITIAL, 1, ls), b) && b.pc == Finishing
    ensures var t := Run(INITIAL, 1, ls + [Steady("j")]);
            && t.executor == Open && "j" in t.finished && "j" in t.rows && t.rows["j"] == b.row
            && FileAt(t.files, FileOf(t, "j")) == b.file
  {
    RunSnoc(1, ls, Steady("j"));
  }

  function NewBody(): Body {
    Body(NewRow(Csv), None, Starting, false, false, false)
  }

  /** A write that fails part way: the job is FAILED and its file stays, because its path was never noted. */
  lemma FailedJobKeepsItsFile() returns (ls: seq<Label>)
    ensures var s := Run(INITIAL, 1, ls);
            "j" in s.finished && "j" in s.rows && s.rows["j"].status == Failed && FileOf(s, "j") in s.files
  {
    var row := AsRunning(NewRow(Csv));
    var l0 := AdmittedJob();
    AloneStep(l0, NewBody(), Works, Written, []);
    var l1 := l0 + [Work("j", Works, Written, [])];
    AloneStep(l1, Body(row, None, Building, false, false, false), Works, Written, [1]);
    var l2 := l1 + [Work("j", Works, Written, [1])];
    AloneStep(l2, Body(row, None, Rendered([1]), false, false, false), Works, Partly(0, false), []);
    var l3 := l2 + [Work("j", Works, Partly(0, false), [])];
    ls := FromCatch(l3, Body(row, Some([]), Failing(false), false, true, false));
  }

  /** The catch branch of a job with nothing to delete. */
  lemma FromCatch(l3: seq<Label>, b: Body) returns (ls: seq<Label>)
    requires Alone(Run(INITIAL, 1, l3), b) && b.pc == Failing(false) && b.file.Some?
    ensures var s := Run(INITIAL, 1, ls);
            "j" in s.finished && "j" in s.rows && s.rows["j"].status == Failed && FileOf(s, "j") in s.files
  {
    AloneStep(l3, b, Works, Written, []);
    var l4 := l3 + [Work("j", Works, Written, [])];
    AloneStep(l4, b.(pc := Cleaned), Works, Written, []);
    var l5 := l4 + [Work("j", Works, Written, [])];
    AloneFinishes(l5, b.(pc := Finishing, row := AsFailed(b.row, "failed")));
    ls := l5 + [Steady("j")];
  }

  /** An Error while rendering: the body is over, its row is still RUNNING, and nothing in this instance will close it. */
  lemma DeadJobStaysOpen() returns (ls: seq<Label>)
    ensures var s := Run(INITIAL, 1, ls);
            "j" in s.finished && "j" in s.rows && s.rows["j"].status == Status.Running && s.executor == Open
  {
    var row := AsRunning(NewRow(Csv));
    var l0 := AdmittedJob();
    AloneStep(l0, NewBody(), Works, Written, []);
    var l1 := l0 + [Work("j", Works, Written, [])];
    AloneStep(l1, Body(row, None, Building, false, false, false), Dies, Written, []);
    var l2 := l1 + [Work("j", Dies, Written, [])];
    AloneFinishes(l2, Body(row, None, Finishing, true, false, false));
    ls := l2 + [Steady("j")];
  }

  /** Job "j" has written its file. */
  lemma StoredJob() returns (ls: seq<Label>)
    ensures Alone(Run(INITIAL, 1, ls), Body(AsRunning(NewRow(Csv)), Some([1]), Stored([1]), false, false, false))
  {
    var row := AsRunning(NewRow(Csv));
    var l0 := AdmittedJob();
    AloneStep(l0, NewBody(), Works, Written, []);
    var l1 := l0 + [Work("j", Works, Written, [])];
    AloneStep(l1, Body(row, None, Building, false, false, false), Works, Written, [1]);
    var l2 := l1 + [Work("j", Works, Written, [1])];
    AloneStep(l2, Body(row, None, Rendered([1]), false, false, false), Works, Written, []);
    ls := l2 + [Work("j", Works, Written, [])];
  }

  /** A success whose acknowledgement is lost: the row says SUCCEEDED, and the catch branch fails it. */
  lemma LostAckFailsASucceededJob() returns (before: seq<Label>, after: seq<Label>)
    ensures var s, t := Run(INITIAL, 1, before), Run(INITIAL, 1, before + after);
            "j" in s.rows && s.rows["j"].status == Succeeded && "j" in t.rows && t.rows["j"].status == Failed
  {
    var ls := StoredJob();
    var b := Body(AsRunning(NewRow(Csv)), Some([1]), Stored([1]), false, false, false);
    AloneStep(ls, b, Unacked, Written, []);
    before := ls + [Work("j", Unacked, Written, [])];
    var c := BodyStep("j", b, Unacked, Written, []);
    AloneStep(before, c, Works, Written, []);
    var l2 := before + [Steady("j")];
    AloneStep(l2, c.(pc := Cleaned, file := None), Works, Written, []);
    after := [Steady("j")] + [Steady("j")];
    assert before + after == l2 + [Steady("j")];
  }

  /** A crash between the write and the record of it: after the restart the job is FAILED and its file stays. */
  lemma CrashStrandsAFile() returns (ls: seq<Label>)
    ensures var s := Run(INITIAL, 1, ls);
            "j" in s.rows && s.rows["j"].status == Failed && "j" !in s.running && FileOf(s, "j") in s.files && s.reconciled
  {
    var l0 := StoredJob();
    var s0 := Run(INITIAL, 1, l0);
    RunSnoc(1, l0, Crash);
    RunSnoc(1, l0 + [Crash], Boot);
    RunSnoc(1, l0 + [Crash] + [Boot], Reconcile);
    ls := l0 + [Crash] + [Boot] + [Reconcile];
    RestartAfterCrash(s0);
  }

  lemma RestartAfterCrash(s: State)
    requires s.up && "j" in s.rows && !Terminal(s.rows["j"].status) && FileOf(s, "j") in s.files
    ensures var t := Next(Next(Next(s, 1, Crash), 1, Boot), 1, Reconcile);
            "j" in t.rows && t.rows["j"].status == Failed && "j" !in t.running && FileOf(t, "j") in t.files && t.reconciled
  {
    assert Next(s, 1, Crash) == Down(s);
    assert Next(Down(s), 1, Boot) == Down(s).(up := true, accepting := true, executor := Open);
  }
}
