// The operator's commands, one runner process each: start a run, resume it, or give up one
// attempt.  Every process may die anywhere; the next command finds what is left.
module Sessions {
  import opened Basics
  import opened Benchmark
  import opened Conversation
  import Storage
  import StorageHistory
  import opened Faults
  import opened Journal
  import opened Protocol
  import opened Effects
  import opened Requests
  import opened Runner
  import opened Recovery
  import opened Scheduler
  import RC = RunControl

  // ---------------------------------------------------------------- abandon_recovery

  predicate Abandonable(s: State, spec: TaskSpec) {
    s.journal.Some? &&
    var e := s.journal.value;
    e.task == spec.contract.taskId && e.fingerprint == spec.contract && IsRunning(s, e)
  }

  // The row fails first, then the VM goes, and the journal goes last.
  method AbandonRecovery(hands: Hands, spec: TaskSpec) returns (o: Outcome<()>)
    requires hands.Wired() && Inv(hands.S())
    modifies hands.plant.Frame()
    ensures Inv(hands.S()) && Keeps(old(hands.S()), hands.S())
    ensures hands.S().sends == old(hands.S()).sends
    ensures o.Done? ==> Abandonable(old(hands.S()), spec)
                        && hands.S().journal == None && FailedRowOf(hands.S(), old(hands.S()).journal.value)
    ensures hands.calm && Abandonable(old(hands.S()), spec) ==> o.Done?
    ensures hands.calm && !Abandonable(old(hands.S()), spec) ==> o.Raised? && hands.S() == old(hands.S())
  {
    hide Inv, Keeps, Plant.S;
    KeepsChains();
    var loaded :- hands.LoadJournal();
    if loaded.None? {
      return Raised(RecoveryIncomplete);
    }
    var e := loaded.value;
    if e.task != spec.contract.taskId || e.fingerprint != spec.contract {
      return Raised(RecoveryIncomplete);
    }
    RemainingCases(hands.S(), e);
    o := Terminate(hands, spec, e);
  }

  method Terminate(hands: Hands, spec: TaskSpec, e: Entry) returns (o: Outcome<()>)
    requires hands.Wired() && Inv(hands.S()) && hands.S().journal == Some(e)
    requires e.task == spec.contract.taskId && e.fingerprint == spec.contract
    modifies hands.plant.Frame()
    ensures Inv(hands.S()) && Keeps(old(hands.S()), hands.S())
    ensures hands.S().sends == old(hands.S()).sends
    ensures o.Done? ==> IsRunning(old(hands.S()), e) && hands.S().journal == None && FailedRowOf(hands.S(), e)
    ensures hands.calm && IsRunning(old(hands.S()), e) ==> o.Done?
    ensures hands.calm && !IsRunning(old(hands.S()), e) ==> o.Raised? && hands.S() == old(hands.S())
  {
    hide Inv, Keeps, Plant.S;
    KeepsChains();
    RemainingCases(hands.S(), e);
    var existing :- hands.GetRow(e.task);
    if existing.None? || existing.value.fingerprint != Some(spec.contract) {
      return Raised(RecoveryIncomplete);
    }
    if existing.value.status != Storage.Running {
      return Raised(RecoveryIncomplete);
    }
    if existing.value.attempt != e.attempt || existing.value.runner != Some(e.runner) {
      return Raised(RecoveryIncomplete);
    }
    o := FailAndRemove(hands, e);
  }

  method FailAndRemove(hands: Hands, e: Entry) returns (o: Outcome<()>)
    requires hands.Wired() && Inv(hands.S()) && hands.S().journal == Some(e) && IsRunning(hands.S(), e)
    modifies hands.plant.Frame()
    ensures Inv(hands.S()) && Keeps(old(hands.S()), hands.S())
    ensures hands.S().sends == old(hands.S()).sends
    ensures o.Done? ==> hands.S().journal == None && FailedRowOf(hands.S(), e)
    ensures hands.calm ==> o.Done?
  {
    hide Inv, Keeps, Plant.S;
    KeepsChains();
    var _ :- FailRow(hands, e, "RecoveryIncomplete", "operator abandoned unrecoverable conversation");
    o := Remove(hands, e);
  }

  // The crash states neither recovery nor giving up can leave.
  predicate DeadEnd(s: State, e: Entry) {
    e.phase == Starting && (PreviousFailed(s, e) || (NoRow(s, e) && Hooked(s, e)))
  }

  lemma OnlyDeadEndsRemain(s: State, e: Entry, spec: TaskSpec)
    requires Inv(s) && s.journal == Some(e)
    requires spec.contract == e.fingerprint
    ensures Stuck(s, e) && !Abandonable(s, spec) <==> DeadEnd(s, e)
  {
    JournalAndRow(s, e);
    assert WellFormed(e);
  }

  // Without a journal nothing is open: no VM, no running row, and every prompt that was
  // ever sent belongs to an attempt that is over.
  lemma NothingIsLeft(s: State)
    requires Inv(s) && s.journal == None
    ensures s.live == {}
    ensures forall t | t in s.rows :: s.rows[t].status == Storage.Failed || s.rows[t].status == Storage.Completed
    ensures forall k | k in s.sends :: s.sends[k] == 1 && Over(s.rows, k)
  {
    assert forall t | t in s.rows :: s.rows[t].status != Storage.Pending;
  }

  // ---------------------------------------------------------------- the commands

  // What the configuration and the catalog are when a command is given.
  datatype Settings = Settings(runner: string, tasks: map<string, TaskSpec>, context: Context, plan: RC.Plan)

  predicate Usable(settings: Settings) {
    && settings.runner != ""
    && settings.plan.tasks.Keys == settings.tasks.Keys
    && forall t | t in settings.tasks :: settings.tasks[t].Valid() && settings.tasks[t].contract.taskId == t
  }

  // The campaign, the model, the configuration and the plan of every selected task are still
  // those the run was frozen to.
  predicate StillFrozen(run: RC.ActiveRun, settings: Settings) {
    && settings.plan.campaign == run.plan.campaign && settings.plan.model == run.plan.model
    && settings.plan.configuration == run.plan.configuration
    && forall t | t in run.selected ::
         t in settings.plan.tasks && t in run.plan.tasks && settings.plan.tasks[t] == run.plan.tasks[t]
  }

  // The server has asked for more patience.
  predicate Deferred(run: RC.ActiveRun, now: real) {
    run.retryNotBefore.Some? && now < run.retryNotBefore.value
  }

  datatype Command =
    | NewRun(settings: Settings, runId: string, selected: seq<string>, calm: bool)
    | Resume(settings: Settings, now: real, calm: bool)
    | ResetRecovery(settings: Settings, task: string)

  type Run = Option<RC.ActiveRun>

  predicate Unfinished(run: Run) {
    run.Some? && run.value.status != RC.Completed
  }

  ghost predicate Agreed(run: Run, s: State) {
    run.Some? ==> Agree(run.value, s.rows)
  }

  // An unfinished run is continued, never replaced.
  predicate Continues(run: Run, run': Run) {
    && (run.Some? ==> run'.Some?)
    && (Unfinished(run) ==> Extends(run.value, run'.value))
  }

  method Perform(plant: Plant, run: Run, c: Command) returns (o: Outcome<()>, run': Run)
    requires Inv(plant.S()) && Agreed(run, plant.S()) && Usable(c.settings)
    modifies plant.Frame()
    ensures Inv(plant.S()) && Keeps(old(plant.S()), plant.S()) && Agreed(run', plant.S())
    ensures Continues(run, run')
  {
    hide Inv, Agree, Keeps, RC.Apply;
    KeepsChains();
    match c
    case NewRun(_, _, _, _) => o, run' := StartRun(plant, run, c);
    case Resume(_, now, calm) => o, run' := ResumeRun(plant, run, c.settings, now, calm);
    case ResetRecovery(_, _) => o, run' := Reset(plant, run, c);
  }

  // A new run is refused while one is unfinished.
  method StartRun(plant: Plant, run: Run, c: Command) returns (o: Outcome<()>, run': Run)
    requires c.NewRun? && Inv(plant.S()) && Agreed(run, plant.S()) && Usable(c.settings)
    modifies plant.Frame()
    ensures Inv(plant.S()) && Keeps(old(plant.S()), plant.S()) && Agreed(run', plant.S())
    ensures Continues(run, run')
    ensures Unfinished(run) || c.selected == [] || (exists t :: t in c.selected && t !in c.settings.tasks) ==>
              o.Raised? && run' == run && plant.S() == old(plant.S())
    ensures run' != run ==> run'.Some? && run'.value.runId == c.runId && run'.value.selected == c.selected
                            && StillFrozen(run'.value, c.settings)
    ensures c.calm && !Unfinished(run) && c.selected != [] && Unobstructed(old(plant.S()), c.selected, c.settings) ==>
              o.Done?
    ensures o.Done? ==> run'.Some? && (run'.value.status == RC.Paused || run'.value.status == RC.Completed)
  {
    hide Inv, Keeps, Plant.S;
    KeepsChains();
    if Unfinished(run) || c.selected == [] {
      return Raised(RecoveryIncomplete), run;
    }
    if exists t | t in c.selected :: t !in c.settings.tasks {
      return Raised(RecoveryIncomplete), run;
    }
    var checked := Interrupt(c.calm);          // no manual VM, the templates are published
    if !checked.Done? {
      return checked, run;
    }
    var created := RC.ActiveRun(c.runId, RC.Running, c.settings.plan, c.selected, [], None, None, None);
    var control := Process(created);
    var scheduler := Driver(plant, control, c.settings, c.calm);
    o := scheduler.Execute();
    run' := Some(control.file);
  }

  // A pending journal is of this selection and can be recovered, and the stored rows allow a
  // run of every selected task.
  ghost predicate Unobstructed(s: State, selected: seq<string>, settings: Settings) {
    && (forall t | t in selected :: t in settings.tasks)
    && PendingIsOurs(s, selected, settings.tasks) && AllRunnable(s, selected, settings.tasks, settings.context)
  }

  // What a resume is asked first: an unfinished run, the server's patience, an unchanged plan.
  method Admit(run: Run, settings: Settings, now: real) returns (o: Outcome<()>)
    ensures o == Raised(RateLimited) <==> Unfinished(run) && Deferred(run.value, now)
    ensures o.Done? <==> Unfinished(run) && !Deferred(run.value, now) && StillFrozen(run.value, settings)
    ensures !o.Done? ==> o.Raised?
  {
    if !Unfinished(run) {
      return Raised(RecoveryIncomplete);
    }
    if Deferred(run.value, now) {
      return Raised(RateLimited);
    }
    if !StillFrozen(run.value, settings) {
      return Raised(RecoveryIncomplete);
    }
    return Done(());
  }

  // After a deferral, a resume is put off exactly while one of the two times is to come.
  lemma PatienceEnds(before: RC.ActiveRun, notBefore: real, after: RC.ActiveRun, now: real)
    requires RC.LaterOf(before.retryNotBefore, notBefore, after.retryNotBefore) && now >= 0.0
    ensures Deferred(after, now) <==> now < notBefore || Deferred(before, now)
  {
  }

  // An unfinished run goes on with its frozen selection, and not before the server allows it.
  method ResumeRun(plant: Plant, run: Run, settings: Settings, now: real, calm: bool)
    returns (o: Outcome<()>, run': Run)
    requires Inv(plant.S()) && Agreed(run, plant.S()) && Usable(settings)
    modifies plant.Frame()
    ensures Inv(plant.S()) && Keeps(old(plant.S()), plant.S()) && Agreed(run', plant.S())
    ensures Continues(run, run') && (run.Some? ==> Extends(run.value, run'.value))
    ensures !Unfinished(run) || Deferred(run.value, now) || !StillFrozen(run.value, settings) ==>
              o.Raised? && run' == run && plant.S() == old(plant.S())
    ensures Unfinished(run) && Deferred(run.value, now) ==> o == Raised(RateLimited)
    ensures calm && Unfinished(run) && !Deferred(run.value, now) && StillFrozen(run.value, settings) ==>
              Unobstructed(old(plant.S()), run.value.selected, settings) ==> o.Done?
    ensures o.Done? ==> run.Some? && (run'.value.status == RC.Paused || run'.value.status == RC.Completed)
  {
    hide Inv, Keeps, Agree, Plant.S;
    KeepsChains();
    var admitted := Admit(run, settings, now);
    if !admitted.Done? {
      return admitted, run;
    }
    var checked := Interrupt(calm);            // no manual VM, the templates are published
    if !checked.Done? {
      return checked, run;
    }
    o, run' := Continue(plant, run.value, settings, calm);
  }

  // The run goes on in a new process.
  method Continue(plant: Plant, run: RC.ActiveRun, settings: Settings, calm: bool) returns (o: Outcome<()>, run': Run)
    requires Inv(plant.S()) && Agree(run, plant.S().rows) && Usable(settings)
    requires run.status != RC.Completed && StillFrozen(run, settings)
    modifies plant.Frame()
    ensures Inv(plant.S()) && Keeps(old(plant.S()), plant.S()) && Agreed(run', plant.S())
    ensures run'.Some? && Extends(run, run'.value)
    ensures calm && Unobstructed(old(plant.S()), run.selected, settings) ==> o.Done?
    ensures o.Done? ==> run'.value.status == RC.Paused || run'.value.status == RC.Completed
  {
    hide Inv, Keeps, Agree, Plant.S;
    KeepsChains();
    var control := Process(run);
    var scheduler := Driver(plant, control, settings, calm);
    var begun := scheduler.Control(RC.BeginResume, scheduler.hands);
    if !begun.Done? {
      return begun.PropagateFailure(), Some(control.file);
    }
    o := scheduler.Execute();
    run' := Some(control.file);
  }

  // The operator gives up the pending attempt of one frozen task; the run then is paused.
  method Reset(plant: Plant, run: Run, c: Command) returns (o: Outcome<()>, run': Run)
    requires c.ResetRecovery? && Inv(plant.S()) && Agreed(run, plant.S()) && Usable(c.settings)
    modifies plant.Frame()
    ensures Inv(plant.S()) && Keeps(old(plant.S()), plant.S()) && Agreed(run', plant.S())
    ensures Continues(run, run') && (run.Some? ==> Extends(run.value, run'.value))
    ensures plant.S().sends == old(plant.S()).sends
    ensures !Unfinished(run) || c.task !in run.value.selected || !StillFrozen(run.value, c.settings) ==>
              o.Raised? && run' == run && plant.S() == old(plant.S())
    ensures o.Done? ==> Abandonable(old(plant.S()), c.settings.tasks[c.task])
                        && plant.S().journal == None && run'.Some? && !RC.Active(run'.value.status)
  {
    hide Inv, Keeps, Agree, Plant.S, Abandonable;
    KeepsChains();
    if !Unfinished(run) || c.task !in run.value.selected || !StillFrozen(run.value, c.settings) {
      return Raised(RecoveryIncomplete), run;
    }
    ghost var s := plant.S();
    var control := Process(run.value);
    var scheduler := Driver(plant, control, c.settings, false);
    o := GiveUp(scheduler.hands, c.settings.tasks[c.task]);
    KeepsAgree(control.file, s, plant.S());
    if !o.Done? {
      return o, run;
    }
    o := Halt(scheduler);
    run' := Some(control.file);
  }

  // The adapter recovers its side first and cleans it up last.
  method GiveUp(hands: Hands, spec: TaskSpec) returns (o: Outcome<()>)
    requires hands.Wired() && Inv(hands.S())
    modifies hands.plant.Frame()
    ensures Inv(hands.S()) && Keeps(old(hands.S()), hands.S())
    ensures hands.S().sends == old(hands.S()).sends
    ensures o.Done? ==> Abandonable(old(hands.S()), spec) && hands.S().journal == None
  {
    hide Inv, Keeps, Plant.S, Abandonable;
    KeepsChains();
    var pending :- hands.LoadJournal();
    if pending.None? || pending.value.task != spec.contract.taskId {
      return Raised(RecoveryIncomplete);
    }
    var _ :- hands.Try();                      // the adapter recovers the task
    var row :- hands.GetRow(spec.contract.taskId);
    if row.None? || row.value.status != Storage.Running {
      return Raised(RecoveryIncomplete);
    }
    var _ :- AbandonRecovery(hands, spec);
    o := hands.Try();                          // and cleans it up
  }

  method Halt(scheduler: Scheduler) returns (o: Outcome<()>)
    requires scheduler.Good() && scheduler.control.Quiet()
    modifies scheduler.control
    ensures scheduler.Good() && Extends(old(scheduler.control.file), scheduler.control.file)
    ensures o.Done? ==> !RC.Active(scheduler.control.file.status)
  {
    hide Inv, Agree, Plant.S;
    var halted := RC.PausedError("recovery", "RecoveryReset", "operator abandoned recovery");
    var _ :- scheduler.Control(halted, scheduler.hands);
    return Done(());
  }

  // A process finds the control file as it was left, and none of its memory.
  method Process(file: RC.ActiveRun) returns (control: RC.RunControlStore)
    ensures fresh(control) && control.file == file && control.Quiet()
  {
    var signals: nat := *;
    control := new RC.RunControlStore(file, signals);
  }

  method Driver(plant: Plant, control: RC.RunControlStore, settings: Settings, calm: bool)
    returns (scheduler: Scheduler)
    requires control as object !in plant.Frame()
    requires Usable(settings) && Inv(plant.S()) && Agree(control.file, plant.S().rows)
    requires forall t | t in control.file.selected :: t in settings.tasks
    ensures fresh(scheduler) && scheduler.hands.plant == plant && scheduler.control == control && scheduler.Good()
    ensures scheduler.hands.calm == calm && scheduler.tasks == settings.tasks && scheduler.context == settings.context
  {
    var hands := new Hands(plant, calm);
    scheduler := new Scheduler(hands, hands, control, settings.runner, settings.tasks, settings.context);
  }

  // ---------------------------------------------------------------- every history

  // Whatever the commands, and wherever each of them fails or dies: the invariant holds
  // after each, no completed row is ever taken back, the control file agrees with storage,
  // and no attempt has been sent twice.
  method Operate(hooked: set<string>, commands: seq<Command>) returns (plant: Plant, run: Run, ghost trace: seq<State>)
    requires forall i | 0 <= i < |commands| :: Usable(commands[i].settings)
    ensures fresh(plant.Frame())
    ensures |trace| == |commands| + 1 && trace[|commands|] == plant.S()
    ensures Faultless(trace)
    ensures Agreed(run, plant.S())
    ensures forall k | k in plant.S().sends ::
              && plant.S().sends[k] == 1
              && (Over(plant.S().rows, k) || Reached(plant.S().journal, k, Rank(SubmissionStarted)))
  {
    hide Agree, Keeps, Inv, Usable;
    plant := new Plant(hooked);
    run := None;
    trace := [plant.S()];
    BlankIsSound(hooked);
    KeepsChains();
    var i := 0;
    while i < |commands|
      invariant 0 <= i <= |commands| && |trace| == i + 1 && trace[i] == plant.S()
      invariant fresh(plant.Frame())
      invariant Agreed(run, plant.S()) && Faultless(trace)
    {
      var o;
      o, run := Perform(plant, run, commands[i]);
      FaultlessGrows(trace, plant.S());
      trace := trace + [plant.S()];
      i := i + 1;
    }
    SentOnce(plant.S());
  }

  ghost predicate Faultless(trace: seq<State>) {
    && (forall i | 0 <= i < |trace| :: Inv(trace[i]))
    && (forall i, j | 0 <= i <= j < |trace| :: Keeps(trace[i], trace[j]))
  }

  lemma FaultlessGrows(trace: seq<State>, s: State)
    requires Faultless(trace) && |trace| > 0 && Inv(s) && Keeps(trace[|trace| - 1], s)
    ensures Faultless(trace + [s])
  {
    hide Inv, Keeps;
    KeepsChains();
    assert forall i | 0 <= i < |trace| :: Keeps(trace[i], trace[|trace| - 1]);
  }

  // In every reachable state, a prompt went out once, and while its attempt is open the
  // journal says so.
  lemma SentOnce(s: State)
    requires Inv(s)
    ensures forall k | k in s.sends ::
              s.sends[k] == 1 && (Over(s.rows, k) || Reached(s.journal, k, Rank(SubmissionStarted)))
  {
  }

  // Every evaluation of one attempt, before and after any number of crashes, grades the same
  // candidate on the same transcript; and if the attempt completes, it is with exactly the
  // messages of that transcript.
  lemma GradesAgree(trace: seq<State>, i: nat, j: nat, g: Grade, h: Grade)
    requires Faultless(trace) && i <= j < |trace|
    requires g in trace[i].graded && h in trace[j].graded && g.key == h.key
    ensures g == h
    ensures var k := g.key;
            k.task in trace[j].rows && trace[j].rows[k.task].attempt == k.attempt
            && trace[j].rows[k.task].status == Storage.Completed ==>
              RowHolds(trace[j].rows[k.task], g.captured)
  {
    assert Keeps(trace[i], trace[j]) && Inv(trace[j]);
    assert g in trace[j].graded;
  }

  // The evaluation of a completed row is the verdict that was returned for its transcript, and
  // no later evaluation replaces it.
  lemma VerdictStays(trace: seq<State>, i: nat, j: nat, task: string)
    requires Faultless(trace) && i <= j < |trace|
    requires task in trace[i].rows && trace[i].rows[task].status == Storage.Completed
    ensures task in trace[j].rows && trace[j].rows[task] == trace[i].rows[task]
    ensures var row := trace[i].rows[task];
            var k := Key(task, row.attempt);
            && k in trace[i].verdicts && k in trace[j].verdicts
            && trace[i].verdicts[k] == trace[j].verdicts[k]
            && RowHolds(row, trace[i].verdicts[k].captured) && row.evaluation == trace[i].verdicts[k].result
  {
    assert Keeps(trace[i], trace[j]) && Inv(trace[i]) && Inv(trace[j]);
    CompletedHoldsVerdict(trace[i], task);
    CompletedHoldsVerdict(trace[j], task);
  }

  // A checkpoint in the journal matches the capture file, and keeps its candidate for good.
  lemma CheckpointStays(trace: seq<State>, i: nat, j: nat, e: Entry, g: Grade)
    requires Faultless(trace) && i <= j < |trace|
    requires trace[i].journal == Some(e) && Checkpoint(e.phase)
    requires g in trace[j].graded && g.key == KeyOf(e)
    ensures trace[i].capture.Some? && CaptureIs(trace[i].capture.value, e)
    ensures g.captured == trace[i].capture.value.captured
    ensures e.phase == CandidateCheckpointed ==> e.candidate == Some(g.candidate)
  {
    assert Keeps(trace[i], trace[j]) && Inv(trace[i]) && Inv(trace[j]);
    assert CheckpointOk(trace[i], e);
  }

  const FINISHED := Captured("c", [], "{}")
  const CONTRACT := Contract("t", {}, false, false, 0)
  const FILE := CaptureFile("t", 1, "r", CONTRACT, FINISHED)

  // The first attempt of a task with hooks, right after its candidate was graded.
  const GRADED := Entry("t", "r", 1, CandidateCheckpointed, CONTRACT, map[], Some("c"), Some("u"), Some(Sha256(FILE)),
                        Some("x"), None)
  const GRADED_ROW := Storage.Row("t", Storage.Running, Some("r"), Some(CONTRACT), 1, Some("c"), None, None,
                                  Some(map[]), "{}", None, None, 0, None)

  function GradedState(): State {
    var k := Key("t", 1);
    State(Some(GRADED), Some(FILE), map["t" := GRADED_ROW], {}, multiset{k}, map[k := "u"], map["c" := "u"],
          map[k := FINISHED], map[k := "x"], {Grade(k, "x", FINISHED)}, map[k := Verdict(FINISHED, None)],
          (set p: Phase | Rank(p) <= Rank(CandidateCheckpointed) :: (k, Wrote(p))) + {(k, Prepared)}, {"t"})
  }

  lemma GradedEntryIsOk()
    ensures EntryOk(GradedState(), GRADED)
  {
    hide IsTransient;
    PlainIdIsDurable("c");
  }

  lemma GradedRowsAreSound()
    ensures var s := GradedState();
            && StorageHistory.Sound(s.rows) && WriteAhead(s.journal, s.rows, s.live)
            && Faithful(s.rows, s.transcripts, s.sealed, s.graded) && Judged(s.rows, s.verdicts)
            && Examined(s.rows, s.hooked, s.transcripts, s.sealed, s.graded)
  {
  }

  lemma GradedIsInOrder()
    ensures var s := GradedState(); InOrder(s.journal, s.rows, s.sends, s.hooked, s.deeds)
  {
  }

  lemma GradedIsAccounted()
    ensures var s := GradedState();
            AtMostOnce(s.sends) && Traced(s.rows, s.sends, s.posted, s.threads)
            && Accounted(s.journal, s.rows, s.sends, s.transcripts, s.sealed)
  {
  }

  // The invariant leaves room for an attempt that is graded while its journal stands at the
  // checkpointed candidate.
  lemma AGradedAttempt() returns (s: State, g: Grade)
    ensures Inv(s) && g in s.graded
    ensures s.journal.Some? && s.journal.value.phase == CandidateCheckpointed && KeyOf(s.journal.value) == g.key
  {
    hide StorageHistory.Sound, WriteAhead, AtMostOnce, Traced, Accounted, Faithful, Judged, Examined, InOrder, EntryOk;
    s, g := GradedState(), Grade(Key("t", 1), "x", FINISHED);
    GradedEntryIsOk();
    GradedRowsAreSound();
    GradedIsInOrder();
    GradedIsAccounted();
  }
}
