// BenchmarkRunner: one attempt as a sequence of durable steps, and recovery from any crash.
module Runner {
  import opened Basics
  import opened Benchmark
  import opened Conversation
  import opened Storage
  import opened StorageHistory
  import opened Journal
  import opened Protocol
  import opened Effects
  import opened Requests

  // The VM goes before the journal, and the journal before the capture.
  method Remove(hands: Hands, e: Entry) returns (o: Outcome<()>)
    requires Inv(hands.S()) && hands.S().journal.Some? && SameAttempt(hands.S().journal.value, e)
    requires e.task in hands.S().rows && hands.S().rows[e.task].status != Running
    modifies hands.plant.Frame()
    ensures Inv(hands.S()) && Keeps(old(hands.S()), hands.S())
    ensures hands.S().sends == old(hands.S()).sends && hands.S().rows == old(hands.S()).rows
    ensures hands.S().verdicts == old(hands.S()).verdicts
    ensures o.Done? ==> hands.S().journal == None && hands.S().capture == None
    ensures hands.calm ==> o.Done?
  {
    hide Inv, Keeps, Plant.S, CanDestroy, CanClear, SameAttempt;
    KeepsChains();
    RemainsMayGo(hands.S(), e);
    var _ :- hands.ResetVm(e);
    var _ :- hands.ClearJournal();
    o := hands.ClearCapture();
  }

  lemma RemainsMayGo(s: State, e: Entry)
    requires s.journal.Some? && SameAttempt(s.journal.value, e)
    requires e.task in s.rows && s.rows[e.task].status != Running
    ensures CanDestroy(s) && (VmOf(e) !in s.live ==> CanClear(s)) && CanClear(s.(live := s.live - {VmOf(e)}))
  {
  }

  // The row first, then the VM.
  method StartRowAndVm(hands: Hands, e: Entry, context: Context) returns (o: Outcome<()>, started: bool)
    requires hands.Wired() && Inv(hands.S()) && hands.S().journal == Some(e) && e.phase == Starting
    requires (NoRow(hands.S(), e) || PreviousFailed(hands.S(), e)) && VmOf(e) !in hands.S().live
    modifies hands.plant.Frame()
    ensures Inv(hands.S()) && Keeps(old(hands.S()), hands.S())
    ensures NotFailed(hands.S().rows, KeyOf(e))
    ensures Others(old(hands.S()).rows, hands.S().rows, e.task)
    ensures hands.S().sends == old(hands.S()).sends && hands.S().journal == Some(e)
    ensures o == Raised(StorageConflict) && !started ==> hands.S() == old(hands.S())
    ensures o.Raised? && !IsStorageError(o.exn) && o.exn != Cancelled ==> started
    ensures started ==> IsRunning(hands.S(), e) && Bears(hands.S(), e, context)
    ensures o.Done? ==> started && VmReady(hands.S(), e) && Startable(old(hands.S()), e, context)
    ensures hands.calm && Startable(old(hands.S()), e, context) ==> o.Done?
    ensures hands.calm ==> !o.Killed?
    ensures hands.calm && !o.Done? ==> hands.S() == old(hands.S()) && o == Raised(StorageConflict) && !started
  {
    hide NotFailed, Inv, Keeps, Plant.S, VmReady, Startable, NoRow, PreviousFailed, IsRunning, OnlyRow;
    KeepsChains();
    OpenHasNotFailed(hands.S(), e);
    RunningHasNotFailed(e);
    started := false;
    OnlyRows(hands.S(), e.task);
    var row :- StartRow(hands, e, context);
    started := true;
    RunningRow(hands.S(), e);
    if row.attempt != e.attempt || row.runner != Some(e.runner) {
      return Raised(StorageError), started;
    }
    ghost var s := hands.S();
    o := hands.PrepareVm(e);
    StillRunning(s, hands.S().live, e);
  }

  lemma RunningRow(s: State, e: Entry)
    requires IsRunning(s, e)
    ensures e.task in s.rows && s.rows[e.task].attempt == e.attempt && s.rows[e.task].runner == Some(e.runner)
  {
  }

  lemma StillRunning(s: State, live: set<Vm>, e: Entry)
    ensures IsRunning(s.(live := live), e) == IsRunning(s, e)
  {
  }

  lemma OnlyRows(s: State, task: string)
    ensures forall s' | OnlyRow(s, s', task) :: s' == s.(rows := s'.rows)
  {
  }

  class BenchmarkRunner {
    const hands: Hands
    const later: Hands       // the same hands, in the exception handler of an attempt
    const runnerId: string

    constructor (hands: Hands, later: Hands, runnerId: string)
      ensures this.hands == hands && this.later == later && this.runnerId == runnerId
    {
      this.hands, this.later, this.runnerId := hands, later, runnerId;
    }

    ghost predicate Wired() {
      hands.Wired() && later.Wired() && later.plant == hands.plant
    }

    ghost function S(): State
      reads hands.plant, hands.plant.journal, hands.plant.service, hands.plant.machines, hands.plant.teacher
    {
      hands.S()
    }

    // ------------------------------------------------------------ evaluation

    // A recorded evaluator changes nothing the protocol depends on.
    method RecordEvaluator(e: Entry, record: Json) returns (o: Outcome<Entry>)
      requires Inv(S()) && S().journal == Some(e) && e.phase == CandidateCheckpointed
      modifies hands.plant.Frame()
      ensures Inv(S()) && Keeps(old(S()), S())
      ensures S() == old(S()) || S() == old(S()).(journal := Some(e.(evaluator := Some(record))))
      ensures o.Done? ==> S().journal == Some(o.value)
      ensures hands.calm ==> o.Done?
    {
      hide Inv, CanWrite;
      var loaded :- hands.LoadJournal();
      if loaded.None? || loaded.value.phase != CandidateCheckpointed {
        return Raised(RecoveryIncomplete);
      }
      var e' := loaded.value.(evaluator := Some(record));
      EvaluatorWritable(S(), e, record);
      var _ :- hands.WriteJournal(e');
      return Done(e');
    }

    // The candidate is checkpointed before it is graded, and only a checkpointed one is.
    method EvaluateCapture(task: string, attempt: nat, captured: Captured) returns (o: Outcome<Option<Evaluation>>)
      requires Inv(S()) && S().journal.Some? && IsRunning(S(), S().journal.value)
      requires S().journal.value.task == task && S().journal.value.attempt == attempt
      requires Evaluable(S(), S().journal.value, captured)
      modifies hands.plant.Frame()
      ensures Inv(S()) && Keeps(old(S()), S())
      ensures Evaluated(old(S()), S())
      ensures o.Done? ==> EvaluationValid(o.value) && Deliverable(S(), S().journal.value, captured)
      ensures o.Done? && task in S().hooked ==>
                S().journal.value.phase == CandidateCheckpointed
                && WasGraded(Key(task, attempt), S().transcripts, S().sealed, S().graded)
      ensures S().verdicts == if o.Done? then old(S()).verdicts[Key(task, attempt) := Verdict(captured, o.value)]
                              else old(S()).verdicts
      ensures hands.calm ==> o.Done?
    {
      hide Inv, EvaluationValid, Keeps, Plant.S, Evaluable, Deliverable, IsRunning, WasGraded;
      KeepsChains();
      Hooks(S(), S());
      if task !in hands.plant.hooked {
        o := EvaluatePlain(S().journal.value, captured);
        return;
      }
      var loaded :- hands.LoadJournal();
      if loaded.None? || loaded.value.task != task || loaded.value.attempt != attempt {
        return Raised(RecoveryIncomplete);
      }
      o := EvaluateUnderHooks(loaded.value, captured);
    }

    method EvaluatePlain(ghost e: Entry, captured: Captured) returns (o: Outcome<Option<Evaluation>>)
      requires Inv(S()) && S().journal == Some(e) && IsRunning(S(), e) && Evaluable(S(), e, captured)
      requires !Hooked(S(), e)
      modifies hands.plant.Frame()
      ensures Inv(S()) && Keeps(old(S()), S())
      ensures Evaluated(old(S()), S())
      ensures o.Done? ==> EvaluationValid(o.value) && Deliverable(S(), e, captured) && S().journal == Some(e)
      ensures S().verdicts == if o.Done? then old(S()).verdicts[KeyOf(e) := Verdict(captured, o.value)]
                              else old(S()).verdicts
      ensures hands.calm ==> o.Done?
    {
      hide Inv, EvaluationValid, Keeps, Plant.S;
      UncheckpointedDeliverable(S(), captured);
      o := hands.Evaluate(e, captured);
    }

    method EvaluateUnderHooks(found: Entry, captured: Captured) returns (o: Outcome<Option<Evaluation>>)
      requires Inv(S()) && S().journal == Some(found) && IsRunning(S(), found) && Evaluable(S(), found, captured)
      requires Hooked(S(), found)
      modifies hands.plant.Frame()
      ensures Inv(S()) && Keeps(old(S()), S())
      ensures Evaluated(old(S()), S())
      ensures o.Done? ==>
                && EvaluationValid(o.value) && S().journal.Some?
                && S().journal.value.phase == CandidateCheckpointed
                && Deliverable(S(), S().journal.value, captured)
                && WasGraded(KeyOf(found), S().transcripts, S().sealed, S().graded)
      ensures S().verdicts == if o.Done? then old(S()).verdicts[KeyOf(found) := Verdict(captured, o.value)]
                              else old(S()).verdicts
      ensures hands.calm ==> o.Done?
    {
      hide Inv, EvaluationValid, Keeps, Plant.S;
      KeepsChains();
      var entry :- CheckpointBoth(found, captured);
      o := Grade(entry, captured);
      if o.Done? {
        CheckpointedDeliverable(S(), captured);
      }
    }

    method CheckpointBoth(found: Entry, captured: Captured) returns (o: Outcome<Entry>)
      requires Inv(S()) && S().journal == Some(found) && (found.phase == ConversationKnown || Checkpoint(found.phase))
      requires IsRunning(S(), found) && Evaluable(S(), found, captured) && Hooked(S(), found)
      modifies hands.plant.Frame()
      ensures Inv(S()) && Keeps(old(S()), S())
      ensures Evaluated(old(S()), S()) && S().verdicts == old(S()).verdicts
      ensures o.Done? ==> S().journal == Some(o.value) && o.value.phase == CandidateCheckpointed
                          && Evaluable(S(), o.value, captured)
      ensures hands.calm ==> o.Done?
    {
      hide Inv, Keeps, Plant.S;
      KeepsChains();
      var entry := found;
      if !Checkpoint(entry.phase) {
        entry :- CheckpointConversation(entry, captured);
      }
      if entry.phase != CandidateCheckpointed {
        entry :- CheckpointCandidate(entry, captured);
      }
      return Done(entry);
    }

    method CheckpointConversation(entry: Entry, captured: Captured) returns (o: Outcome<Entry>)
      requires Inv(S()) && S().journal == Some(entry) && entry.phase == ConversationKnown
      requires IsRunning(S(), entry) && Evaluable(S(), entry, captured) && Hooked(S(), entry)
      modifies hands.plant.Frame()
      ensures Inv(S()) && Keeps(old(S()), S())
      ensures Evaluated(old(S()), S()) && S().verdicts == old(S()).verdicts
      ensures o.Done? ==> S().journal == Some(o.value) && o.value.phase == ConversationCheckpointed
                          && Evaluable(S(), o.value, captured)
      ensures hands.calm ==> o.Done?
    {
      hide Inv, CanWrite, Keeps, Plant.S;
      KeepsChains();
      var digest :- hands.WriteCapture(captured, entry);
      var entry' := entry.(phase := ConversationCheckpointed, conversation := Some(captured.conversation),
                           digest := Some(digest));
      ConversationWritable(S(), entry, captured);
      var _ :- hands.WriteJournal(entry');
      return Done(entry');
    }

    method CheckpointCandidate(entry: Entry, captured: Captured) returns (o: Outcome<Entry>)
      requires Inv(S()) && S().journal == Some(entry) && entry.phase == ConversationCheckpointed
      requires IsRunning(S(), entry) && Evaluable(S(), entry, captured)
      modifies hands.plant.Frame()
      ensures Inv(S()) && Keeps(old(S()), S())
      ensures Evaluated(old(S()), S()) && S().verdicts == old(S()).verdicts
      ensures o.Done? ==> S().journal == Some(o.value) && o.value.phase == CandidateCheckpointed
                          && Evaluable(S(), o.value, captured)
      ensures hands.calm ==> o.Done?
    {
      hide Inv, CanWrite, Keeps, Plant.S, IsRunning, Evaluable, Evaluated, AfterWrite;
      KeepsChains();
      EvaluatedItself(S());
      var _ :- hands.Try();                    // hooks.capture
      var candidate: Candidate := *;
      var entry' := entry.(phase := CandidateCheckpointed, candidate := Some(candidate));
      CandidateWritable(S(), entry, candidate);
      CandidateWritten(S(), entry, candidate, captured);
      var _ :- hands.WriteJournal(entry');
      return Done(entry');
    }

    // An isolated evaluator is recorded before it runs.
    method Isolate(entry: Entry) returns (o: Outcome<Entry>)
      requires Inv(S()) && S().journal == Some(entry) && entry.phase == CandidateCheckpointed
      modifies hands.plant.Frame()
      ensures Inv(S()) && Keeps(old(S()), S())
      ensures S() == old(S()).(journal := S().journal)
      ensures S().journal.Some? && S().journal.value == entry.(evaluator := S().journal.value.evaluator)
      ensures o.Done? ==> S().journal == Some(o.value)
      ensures hands.calm ==> o.Done?
    {
      hide Inv, Keeps, Plant.S;
      KeepsChains();
      var isolated: bool := *;
      if !isolated {
        return Done(entry);
      }
      var record: Json := *;
      o := RecordEvaluator(entry, record);
    }

    method Grade(entry: Entry, captured: Captured) returns (o: Outcome<Option<Evaluation>>)
      requires Inv(S()) && S().journal == Some(entry) && entry.phase == CandidateCheckpointed
      requires IsRunning(S(), entry) && S().capture.Some? && S().capture.value.captured == captured
      modifies hands.plant.Frame()
      ensures Inv(S()) && Keeps(old(S()), S())
      ensures S() == old(S()).(journal := S().journal, graded := S().graded, verdicts := S().verdicts)
      ensures S().journal.Some? && S().journal.value == entry.(evaluator := S().journal.value.evaluator)
      ensures entry.candidate.Some?
      ensures o.Done? ==> EvaluationValid(o.value)
                          && Protocol.Grade(KeyOf(entry), entry.candidate.value, captured) in S().graded
      ensures S().verdicts == if o.Done? then old(S()).verdicts[KeyOf(entry) := Verdict(captured, o.value)]
                              else old(S()).verdicts
      ensures hands.calm ==> o.Done?
    {
      hide Inv, Keeps, Plant.S, CanGrade, EvaluationValid;
      KeepsChains();
      CandidateSealed(S(), entry);
      var e :- Isolate(entry);
      Gradable(S(), entry, e, captured);
      hands.Grading(e, entry.candidate.value, captured);
      o := hands.Evaluate(e, captured);
    }

    // ------------------------------------------------------------ completion and cleanup

    // The row is completed first; then the journal says so, the VM goes, and the journal
    // goes last.
    method TakeDown(e: Entry) returns (o: Outcome<()>)
      requires Inv(S()) && S().journal.Some? && SameAttempt(S().journal.value, e)
      requires CompletedRowOf(S(), e) && e.phase == CleanupPending
      modifies hands.plant.Frame()
      ensures Inv(S()) && Keeps(old(S()), S())
      ensures S().sends == old(S()).sends && S().rows == old(S()).rows && S().verdicts == old(S()).verdicts
      ensures o.Done? ==> S().journal == None && S().capture == None
                          && (KeyOf(e), Wrote(CleanupPending)) in S().deeds
      ensures hands.calm ==> o.Done?
    {
      hide Inv, CanWrite, Keeps, Plant.S;
      KeepsChains();
      CleanupWritable(S(), e);
      var _ :- hands.WriteJournal(e);
      var _ :- hands.Try();                    // delete the conversation
      o := Remove(hands, e);
    }

    // Evaluate, complete the row, take the attempt down.
    method Deliver(e: Entry, captured: Captured) returns (o: Outcome<()>)
      requires hands.Wired() && Inv(S()) && S().journal == Some(e) && IsRunning(S(), e)
      requires Evaluable(S(), e, captured)
      modifies hands.plant.Frame()
      ensures Inv(S()) && Keeps(old(S()), S())
      ensures NotFailed(S().rows, KeyOf(e))
      ensures Others(old(S()).rows, S().rows, e.task)
      ensures S().sends == old(S()).sends
      ensures o.Done? ==> S().journal == None && S().capture == None && CompletedWith(S(), e, captured)
      ensures hands.calm ==> o.Done?
    {
      hide Inv, Evaluable, EvaluationValid, Keeps, Plant.S;
      KeepsChains();
      var evaluation :- EvaluateCapture(e.task, e.attempt, captured);
      var row :- CompleteRow(hands, e, captured, evaluation);
      o := Finish(e);
    }

    // The last entry keeps the checkpoint's fields, if there are any.
    method Finish(e: Entry) returns (o: Outcome<()>)
      requires Inv(S()) && S().journal.Some? && SameAttempt(S().journal.value, e) && CompletedRowOf(S(), e)
      modifies hands.plant.Frame()
      ensures Inv(S()) && Keeps(old(S()), S())
      ensures S().sends == old(S()).sends && S().rows == old(S()).rows && S().verdicts == old(S()).verdicts
      ensures o.Done? ==> S().journal == None && S().capture == None
                          && (KeyOf(e), Wrote(CleanupPending)) in S().deeds
      ensures hands.calm ==> o.Done?
    {
      hide Inv, Keeps;
      KeepsChains();
      if Checkpoint(e.phase) {
        var loaded :- hands.LoadJournal();
        o := TakeDown(loaded.value.(phase := CleanupPending));
      } else {
        o := TakeDown(e.(phase := CleanupPending, digest := None, candidate := None, evaluator := None));
      }
    }

    // ------------------------------------------------------------ before Send

    // The row and the VM of the attempt.
    method BringUp(e: Entry, context: Context, resume: Option<Entry>) returns (o: Outcome<()>, started: bool)
      requires hands.Wired() && Inv(S()) && S().journal == Some(e)
      requires Begins(S(), e, resume)
      modifies hands.plant.Frame()
      ensures Inv(S()) && Keeps(old(S()), S()) && S().sends == old(S()).sends
      ensures NotFailed(S().rows, KeyOf(e))
      ensures Others(old(S()).rows, S().rows, e.task)
      ensures S().journal == Some(e)
      ensures o == Raised(StorageConflict) && !started ==> resume.None? && S() == old(S())
      ensures o.Raised? && !IsStorageError(o.exn) && o.exn != Cancelled && resume.None? ==> started
      ensures started || resume.Some? ==> IsRunning(S(), e)
      ensures started && resume.None? ==> Bears(S(), e, context)
      ensures o.Done? ==> (started || resume.Some?) && VmReady(S(), e)
      ensures o.Done? ==> CanBegin(old(S()), e, context, resume)
      ensures hands.calm && CanBegin(old(S()), e, context, resume) ==> o.Done?
      ensures hands.calm ==> !o.Killed?
      ensures hands.calm && !o.Done? ==> S() == old(S())
      ensures hands.calm && !o.Done? && resume.None? ==> o == Raised(StorageConflict) && !started
    {
      hide NotFailed, Inv, Keeps, Plant.S, VmReady, VmRefused, Startable, IsRunning;
      OpenHasNotFailed(S(), e);
      started := resume.Some?;
      if resume.None? {
        o, started := StartRowAndVm(hands, e, context);
      } else {
        o := BringUpAgain(e);
      }
    }

    // The VM of a resumed attempt is made again only if the row had just been started.
    method BringUpAgain(e: Entry) returns (o: Outcome<()>)
      requires Inv(S()) && S().journal == Some(e)
      requires Hooked(S(), e) && Rank(e.phase) < Rank(SubmissionStarted) && IsRunning(S(), e)
      modifies hands.plant.Frame()
      ensures Inv(S()) && Keeps(old(S()), S()) && S().sends == old(S()).sends && S().journal == Some(e)
      ensures S().rows == old(S()).rows
      ensures o.Raised? ==> !IsStorageError(o.exn)
      ensures IsRunning(S(), e)
      ensures o.Done? ==> VmReady(S(), e) && !(e.phase == Starting && VmRefused(old(S()), e))
      ensures hands.calm && !(e.phase == Starting && VmRefused(old(S()), e)) ==> o.Done?
      ensures hands.calm ==> !o.Killed?
      ensures hands.calm && !o.Done? ==> S() == old(S())
    {
      hide Inv, Keeps, Plant.S, VmReady, VmRefused;
      KeepsChains();
      if e.phase == Starting {
        o := hands.PrepareVm(e);
      } else {
        ResumableVm(S(), e);
        o := hands.AssertResume(e);
      }
    }

    // The next preparation phase of an attempt whose row and VM are up.
    method Advance(e: Entry, phase: Phase) returns (o: Outcome<()>)
      requires Inv(S()) && Opened(S(), e) && VmReady(S(), e)
      requires Preparing(phase) && (phase == BenchmarkPreparing || phase == BenchmarkReady ==> Hooked(S(), e))
      requires Prior(KeyOf(e), phase, S().hooked, S().deeds)
      modifies hands.plant.Frame()
      ensures Inv(S()) && Keeps(old(S()), S()) && S().sends == old(S()).sends
      ensures S().rows == old(S()).rows
      ensures Opened(S(), e) && VmReady(S(), e)
      ensures o.Done? ==> S().journal == Some(Fresh(e, phase)) && (KeyOf(e), Wrote(phase)) in S().deeds
      ensures hands.calm ==> o.Done?
    {
      hide Inv, CanWrite, Keeps, Plant.S, Prior;
      PreparingWritable(S(), Fresh(e, phase));
      o := hands.WriteJournal(Fresh(e, phase));
    }

    // Runtime hooks prepare the benchmark inside the attempt's VM.
    method PrepareBenchmark(e: Entry) returns (o: Outcome<()>, phase: Phase)
      requires Inv(S()) && Opened(S(), e) && VmReady(S(), e) && (KeyOf(e), Wrote(AppsPrepared)) in S().deeds
      modifies hands.plant.Frame()
      ensures Inv(S()) && Keeps(old(S()), S())
      ensures S().rows == old(S()).rows
      ensures S().sends == old(S()).sends
      ensures Opened(S(), e) && VmReady(S(), e)
      ensures o.Done? ==> Prior(KeyOf(e), ComposerDirty, S().hooked, S().deeds)
      ensures Rank(phase) < Rank(SubmissionStarted) && phase != Starting
      ensures !Hooked(old(S()), e) ==> phase == AppsPrepared
      ensures hands.calm ==> o.Done?
    {
      hide Inv, Opened, VmReady, Keeps, Plant.S;
      KeepsChains();
      Hooks(S(), S());
      phase := AppsPrepared;
      if e.task in hands.plant.hooked {
        phase := BenchmarkPreparing;
        var _ :- Advance(e, BenchmarkPreparing);
        StillOpened(S(), e, Prepared);
        var _ :- hands.PrepareBenchmark(Fresh(e, BenchmarkPreparing));
        phase := BenchmarkReady;
        var _ :- Advance(e, BenchmarkReady);
      }
      return Done(()), phase;
    }

    lemma StillOpened(s: State, e: Entry, deed: Deed)
      ensures var s' := s.(deeds := s.deeds + {(KeyOf(e), deed)});
              Opened(s', e) == Opened(s, e) && VmReady(s', e) == VmReady(s, e)
    {
    }

    // Everything up to the dirty composer.  `phase` and `started` are what the exception
    // handler of the attempt looks at.
    method StartAttempt(e: Entry, context: Context, resume: Option<Entry>)
      returns (o: Outcome<()>, phase: Phase, started: bool)
      requires hands.Wired() && Inv(S()) && S().journal == Some(e)
      requires Begins(S(), e, resume)
      modifies hands.plant.Frame()
      ensures Inv(S()) && Keeps(old(S()), S()) && S().sends == old(S()).sends
      ensures NotFailed(S().rows, KeyOf(e))
      ensures Others(old(S()).rows, S().rows, e.task)
      ensures Rank(phase) < Rank(SubmissionStarted)
      ensures !started && phase == Starting && o == Raised(StorageConflict) ==> resume.None? && S() == old(S())
      ensures resume.None? && !Hooked(old(S()), e) ==>
                phase == Starting || phase == AppsPrepared || phase == ComposerDirty
      ensures o.Raised? && !IsStorageError(o.exn) && o.exn != Cancelled && resume.None? ==> started
      ensures started || resume.Some? ==> Opened(S(), e)
      ensures o.Done? ==> (started || resume.Some?) && phase == ComposerDirty && VmReady(S(), e)
                          && S().journal == Some(Fresh(e, ComposerDirty))
      ensures o.Done? && resume.None? ==> Bears(S(), e, context)
      ensures o.Done? ==> CanBegin(old(S()), e, context, resume)
      ensures hands.calm && CanBegin(old(S()), e, context, resume) ==> o.Done?
      ensures hands.calm ==> !o.Killed?
      ensures hands.calm && !o.Done? ==> S() == old(S())
      ensures hands.calm && !o.Done? && resume.None? ==> o == Raised(StorageConflict) && !started && phase == Starting
    {
      hide Inv, CanBegin, VmReady, Keeps, Plant.S, Bears;
      KeepsChains();
      phase := e.phase;
      o, started := BringUp(e, context, resume);
      if !o.Done? {
        return;
      }
      assert Opened(S(), e);
      ghost var s := S();
      o, phase := Dress(e);
      if started && resume.None? {
        BearsStays(s, S(), e, context);
      }
    }

    method Dress(e: Entry) returns (o: Outcome<()>, phase: Phase)
      requires Inv(S()) && Opened(S(), e) && VmReady(S(), e)
      modifies hands.plant.Frame()
      ensures Inv(S()) && Keeps(old(S()), S()) && S().sends == old(S()).sends
      ensures S().rows == old(S()).rows
      ensures Opened(S(), e) && VmReady(S(), e)
      ensures Rank(phase) < Rank(SubmissionStarted) && phase != Starting
      ensures !Hooked(old(S()), e) ==> phase == AppsPrepared || phase == ComposerDirty
      ensures o.Done? ==> phase == ComposerDirty && S().journal == Some(Fresh(e, ComposerDirty))
      ensures hands.calm ==> o.Done?
    {
      hide Inv, Opened, VmReady, Keeps;
      KeepsChains();
      phase := AppsPrepared;
      HasStarted(S(), e);
      var _ :- Advance(e, AppsPrepared);
      o, phase := PrepareBenchmark(e);
      if !o.Done? {
        return;
      }
      var _ :- hands.Try();                    // session, composer, unchanged task files
      phase := ComposerDirty;
      o := Advance(e, ComposerDirty);
    }

    // ------------------------------------------------------------ Send

    // The journal says the submission has started before the button is clicked.
    method ClickSend(e: Entry) returns (o: Outcome<()>)
      requires Inv(S()) && Opened(S(), e) && VmReady(S(), e) && (KeyOf(e), Wrote(ComposerDirty)) in S().deeds
      modifies hands.plant.Frame()
      ensures Inv(S()) && Keeps(old(S()), S())
      ensures S().rows == old(S()).rows
      ensures S().sends == old(S()).sends || S().sends == old(S()).sends + multiset{KeyOf(e)}
      ensures S().journal == old(S()).journal || S().journal == Some(Fresh(e, SubmissionStarted))
      ensures o.Done? ==> InFlight(S(), Fresh(e, SubmissionStarted)) && KeyOf(e) in S().posted
                          && S().sends == old(S()).sends + multiset{KeyOf(e)}
      ensures hands.calm ==> o.Done?
    {
      hide Inv, CanWrite, Opened, Keeps, Plant.S;
      KeepsChains();
      SubmissionWritable(S(), e, Fresh(e, SubmissionStarted));
      var _ :- hands.WriteJournal(Fresh(e, SubmissionStarted));
      o := hands.Send(Fresh(e, SubmissionStarted));
    }

    // The journal names the user message as soon as the browser has posted it.
    method NameMessage(e: Entry) returns (o: Outcome<string>)
      requires Inv(S()) && InFlight(S(), Fresh(e, SubmissionStarted)) && KeyOf(e) in S().posted
      modifies hands.plant.Frame()
      ensures Inv(S()) && Keeps(old(S()), S()) && S().sends == old(S()).sends
      ensures S().rows == old(S()).rows
      ensures S().journal.Some? && S().journal.value.phase == SubmissionStarted
      ensures o.Done? ==> KeyOf(e) in S().posted && o.value == S().posted[KeyOf(e)]
      ensures o.Done? ==> InFlight(S(), Fresh(e, SubmissionStarted).(userMessage := Some(o.value)))
      ensures hands.calm ==> o.Done?
    {
      hide Inv, CanWrite, Keeps, Plant.S;
      KeepsChains();
      var userMessage :- hands.PostedMessage(e);
      var posted := Fresh(e, SubmissionStarted).(userMessage := Some(userMessage));
      ResubmissionWritable(S(), Fresh(e, SubmissionStarted), posted);
      var _ :- hands.WriteJournal(posted);
      return Done(userMessage);
    }

    // The message the prompt became, and the conversation that holds it.
    method Identify(e: Entry) returns (o: Outcome<(string, string)>)
      requires Inv(S()) && InFlight(S(), Fresh(e, SubmissionStarted)) && KeyOf(e) in S().posted
      modifies hands.plant.Frame()
      ensures Inv(S()) && Keeps(old(S()), S()) && S().sends == old(S()).sends
      ensures S().rows == old(S()).rows
      ensures S().journal.Some? && S().journal.value.phase == SubmissionStarted
      ensures o.Done? ==> InFlight(S(), Fresh(e, SubmissionStarted).(userMessage := Some(o.value.1)))
                          && KeyOf(e) in S().posted && o.value.1 == S().posted[KeyOf(e)]
                          && Shown(S(), o.value.0, o.value.1)
      ensures hands.calm ==> o.Done?
    {
      hide Inv, Keeps, Plant.S, IsRunning, VmReady;
      KeepsChains();
      var _ :- hands.Try();                    // the response stream and the posted request are valid
      var userMessage :- NameMessage(e);
      var _ :- hands.Try();                    // the initial status of the stream
      ghost var s := S();
      var conversation :- hands.FindConversation(userMessage);
      StillInFlight(s, S().threads, Fresh(e, SubmissionStarted).(userMessage := Some(userMessage)));
      return Done((conversation, userMessage));
    }

    method Submit(e: Entry) returns (o: Outcome<(string, string)>, phase: Phase)
      requires Inv(S()) && Opened(S(), e) && VmReady(S(), e) && (KeyOf(e), Wrote(ComposerDirty)) in S().deeds
      modifies hands.plant.Frame()
      ensures Inv(S()) && Keeps(old(S()), S())
      ensures S().rows == old(S()).rows
      ensures phase == ComposerDirty || phase == SubmissionStarted
      ensures phase == ComposerDirty ==> Opened(S(), e)
      ensures S().journal == old(S()).journal || (S().journal.Some? && S().journal.value.phase == SubmissionStarted)
      ensures S().sends == old(S()).sends || S().sends == old(S()).sends + multiset{KeyOf(e)}
      ensures o.Done? ==> InFlight(S(), Fresh(e, SubmissionStarted).(userMessage := Some(o.value.1)))
                          && KeyOf(e) in S().posted && o.value.1 == S().posted[KeyOf(e)]
                          && Shown(S(), o.value.0, o.value.1) && S().sends == old(S()).sends + multiset{KeyOf(e)}
      ensures hands.calm ==> o.Done?
    {
      hide Inv, Opened, InFlight, Keeps, Plant.S, Shown;
      KeepsChains();
      phase := ComposerDirty;
      var _ :- hands.Try();                    // the Send button is there, the backend is quiet
      phase := SubmissionStarted;
      var _ :- ClickSend(e);
      o := Identify(e);
    }

    // ------------------------------------------------------------ the conversation

    method Know(e: Entry, p: Entry) returns (o: Outcome<()>)
      requires Inv(S()) && InFlight(S(), p) && p.phase == SubmissionStarted
      requires SameAttempt(p, e) && e.phase == ConversationKnown
      requires Named(S(), e)
      modifies hands.plant.Frame()
      ensures Inv(S()) && Keeps(old(S()), S()) && S().sends == old(S()).sends && S().rows == old(S()).rows
      ensures o.Done? ==> InFlight(S(), e)
      ensures hands.calm ==> o.Done?
    {
      hide Inv, CanWrite, Keeps, Plant.S;
      KnownWritable(S(), p, e);
      o := hands.WriteJournal(e);
    }

    // A captured conversation: assigned to the row, evaluated, delivered.
    method AssignAndDeliver(e: Entry, captured: Captured) returns (o: Outcome<()>)
      requires hands.Wired() && Inv(S()) && InFlight(S(), e) && e.phase == ConversationKnown
      requires e.conversation == Some(captured.conversation)
      modifies hands.plant.Frame()
      ensures Inv(S()) && Keeps(old(S()), S()) && S().sends == old(S()).sends
      ensures NotFailed(S().rows, KeyOf(e))
      ensures Others(old(S()).rows, S().rows, e.task)
      ensures o.Done? ==> S().journal == None && S().capture == None && CompletedWith(S(), e, captured)
      ensures hands.calm ==> o.Done?
    {
      hide Inv, Keeps, Plant.S;
      KeepsChains();
      var row :- AssignConversation(hands, e);
      o := Deliver(e, captured);
    }

    // The conversation of a submitted attempt, awaited and delivered.  Its id is written to
    // the row before the wait, so a crash during the wait finds it there.
    method Converse(e: Entry) returns (o: Outcome<()>)
      requires hands.Wired() && Inv(S()) && InFlight(S(), e) && e.phase == ConversationKnown
      modifies hands.plant.Frame()
      ensures Inv(S()) && Keeps(old(S()), S()) && S().sends == old(S()).sends
      ensures NotFailed(S().rows, KeyOf(e))
      ensures Others(old(S()).rows, S().rows, e.task)
      ensures o.Done? ==> S().journal == None && Delivered(S(), e)
      ensures hands.calm ==> o.Done?
    {
      hide Inv, Keeps, Plant.S;
      KeepsChains();
      KnownIsNamed(S(), e);
      var row :- AssignConversation(hands, e);
      var captured :- hands.AwaitSnapshot(e.conversation.value, e.userMessage.value);
      var _ :- hands.Try();                    // runtime metadata
      o := Deliver(e, captured);
    }

    // ------------------------------------------------------------ one attempt

    method AttemptBody(e: Entry, context: Context, resume: Option<Entry>)
      returns (o: Outcome<()>, phase: Phase, started: bool)
      requires hands.Wired() && Inv(S()) && S().journal == Some(e)
      requires Begins(S(), e, resume)
      modifies hands.plant.Frame()
      ensures Inv(S()) && Keeps(old(S()), S())
      ensures NotFailed(S().rows, KeyOf(e))
      ensures Others(old(S()).rows, S().rows, e.task)
      ensures S().sends == old(S()).sends || S().sends == old(S()).sends + multiset{KeyOf(e)}
      ensures !started && phase == Starting && o == Raised(StorageConflict) ==> resume.None? && S() == old(S())
      ensures (started || resume.Some?) && Rank(phase) < Rank(SubmissionStarted) ==> Opened(S(), e)
      ensures resume.None? && !Hooked(old(S()), e) && Rank(phase) < Rank(SubmissionStarted) ==>
                phase == Starting || phase == AppsPrepared || phase == ComposerDirty
      ensures o.Raised? && !IsStorageError(o.exn) && o.exn != Cancelled && resume.None? ==>
                started || Rank(phase) >= Rank(SubmissionStarted)
      ensures Rank(phase) >= Rank(SubmissionStarted) ==> NearSend(S(), e)
      ensures o.Done? ==> S().journal == None && Delivered(S(), e)
                          && S().sends == old(S()).sends + multiset{KeyOf(e)}
      ensures o.Done? && resume.None? ==> Bears(S(), e, context)
      ensures o.Done? ==> CanBegin(old(S()), e, context, resume)
      ensures hands.calm && CanBegin(old(S()), e, context, resume) ==> o.Done?
      ensures hands.calm ==> !o.Killed?
      ensures hands.calm && !o.Done? ==> S() == old(S())
      ensures hands.calm && !o.Done? && resume.None? ==> o == Raised(StorageConflict) && !started && phase == Starting
    {
      hide NotFailed, Inv, CanBegin, Opened, VmReady, InFlight, Begins, Delivered;
      hide IsTransient, IsStorageError;
      hide Plant.S, Keeps, Bears;
      KeepsChains();
      o, phase, started := StartAttempt(e, context, resume);
      if !o.Done? {
        return;
      }
      ghost var s := S();
      HasStarted(s, e);
      o, phase := SubmitAndFollow(e);
      if o.Done? && resume.None? {
        CompletedAttempt(S(), e);
        BearsStays(s, S(), e, context);
      }
    }

    // From the dirty composer to the completed row.
    method SubmitAndFollow(e: Entry) returns (o: Outcome<()>, phase: Phase)
      requires hands.Wired() && Inv(S()) && Opened(S(), e) && VmReady(S(), e)
      requires S().journal == Some(Fresh(e, ComposerDirty)) && (KeyOf(e), Wrote(ComposerDirty)) in S().deeds
      modifies hands.plant.Frame()
      ensures Inv(S()) && Keeps(old(S()), S())
      ensures NotFailed(S().rows, KeyOf(e))
      ensures Others(old(S()).rows, S().rows, e.task)
      ensures S().sends == old(S()).sends || S().sends == old(S()).sends + multiset{KeyOf(e)}
      ensures phase == ComposerDirty || Rank(phase) >= Rank(SubmissionStarted)
      ensures phase == ComposerDirty ==> Opened(S(), e)
      ensures Rank(phase) >= Rank(SubmissionStarted) ==> NearSend(S(), e)
      ensures o.Done? ==> S().journal == None && Delivered(S(), e)
                          && S().sends == old(S()).sends + multiset{KeyOf(e)}
      ensures hands.calm ==> o.Done?
    {
      hide NotFailed, Inv, Opened, VmReady, InFlight, Delivered, IsTransient, Plant.S, Keeps;
      KeepsChains();
      OpenedIsOpen(S(), e);
      var submitted: Outcome<(string, string)>;
      submitted, phase := Submit(e);
      if !submitted.Done? {
        o := submitted.PropagateFailure();
        return;
      }
      var (conversation, userMessage) := submitted.value;
      phase := ConversationKnown;
      o := Follow(e, conversation, userMessage);
      SentIsNear(S(), e);
    }

    method Follow(e: Entry, conversation: string, userMessage: string) returns (o: Outcome<()>)
      requires hands.Wired() && Inv(S())
      requires InFlight(S(), Fresh(e, SubmissionStarted).(userMessage := Some(userMessage)))
      requires KeyOf(e) in S().posted && userMessage == S().posted[KeyOf(e)] && Shown(S(), conversation, userMessage)
      modifies hands.plant.Frame()
      ensures Inv(S()) && Keeps(old(S()), S()) && S().sends == old(S()).sends
      ensures NotFailed(S().rows, KeyOf(e))
      ensures Others(old(S()).rows, S().rows, e.task)
      ensures o.Done? ==> S().journal == None && Delivered(S(), e)
      ensures hands.calm ==> o.Done?
    {
      hide NotFailed, Inv, VmReady, InFlight, Keeps, Plant.S;
      KeepsChains();
      InFlightIsOpen(S(), Fresh(e, SubmissionStarted).(userMessage := Some(userMessage)));
      var known := Fresh(e, ConversationKnown).(conversation := Some(conversation), userMessage := Some(userMessage));
      var _ :- Know(known, Fresh(e, SubmissionStarted).(userMessage := Some(userMessage)));
      o := Converse(known);
    }

    // An attempt that raised before Send is closed at once when nothing can be outstanding;
    // anything else is left to recovery, with its journal.
    method RunAttempt(e: Entry, context: Context, resume: Option<Entry>) returns (o: Outcome<()>)
      requires Wired() && Inv(S()) && S().journal == Some(e)
      requires Begins(S(), e, resume)
      modifies hands.plant.Frame()
      ensures Inv(S()) && Keeps(old(S()), S())
      ensures later.calm && o == Raised(Cancelled) ==> NotFailed(S().rows, KeyOf(e))
      ensures Others(old(S()).rows, S().rows, e.task)
      ensures S().sends == old(S()).sends || S().sends == old(S()).sends + multiset{KeyOf(e)}
      ensures o.Done? ==> S().journal == None && Delivered(S(), e)
                          && S().sends == old(S()).sends + multiset{KeyOf(e)}
      ensures o.Done? && resume.None? ==> Bears(S(), e, context)
      ensures o.Done? ==> CanBegin(old(S()), e, context, resume)
      ensures hands.calm && CanBegin(old(S()), e, context, resume) ==> o.Done?
      ensures hands.calm && later.calm ==> !o.Killed?
      ensures hands.calm && !o.Done? && resume.Some? ==> o.Raised? && S() == old(S())
      ensures hands.calm && later.calm && !o.Done? && resume.None? ==>
                S() == old(S()).(journal := None, deeds := S().deeds)
      ensures later.calm && resume.None? && !Hooked(old(S()), e) ==>
                (o.Raised? && o.exn != Cancelled && !IsStorageError(o.exn) ==> NearSend(S(), e))
    {
      hide NotFailed, Inv, CanBegin, Opened, Delivered, IsStorageError, NearSend, Keeps, Plant.S;
      KeepsChains();
      ghost var s := S();
      var phase, started;
      o, phase, started := AttemptBody(e, context, resume);
      Hooks(s, S());
      if o.Raised? && o.exn != Cancelled {
        if phase == Starting && !started && o.exn == StorageConflict {
          RefusedStart(S(), e);
          var _ :- later.ClearJournal();
        } else if e.task !in hands.plant.hooked && phase in {Starting, AppsPrepared, ComposerDirty}
                  && started && !IsStorageError(o.exn) {
          var _ :- CloseAttempt(e);
          NothingIsNear(S(), e);
        }
      }
    }

    lemma Hooks(s: State, s': State)
      requires Keeps(s, s') && s' == S()
      ensures s.hooked == s'.hooked == hands.plant.hooked
    {
    }

    method CloseAttempt(e: Entry) returns (o: Outcome<()>)
      requires Wired() && Inv(S()) && Opened(S(), e) && !Hooked(S(), e)
      modifies hands.plant.Frame()
      ensures Inv(S()) && Keeps(old(S()), S()) && S().sends == old(S()).sends
      ensures Others(old(S()).rows, S().rows, e.task)
      ensures o.Done? ==> S().journal == None && e.task in S().rows && S().rows[e.task].status == Failed
      ensures later.calm ==> o.Done?
    {
      hide Inv, Keeps, Plant.S;
      KeepsChains();
      var _ :- later.ResetVm(e);
      var row :- FailRow(later, e, "runner", "interrupted before Send");
      o := later.ClearJournal();
    }

    // ------------------------------------------------------------ run_task

    // The next attempt of a task.  Its journal is written before the row is started, over
    // whatever entry is there; see OverwriteKeepsInv for what that entry may be.
    method RunTask(spec: TaskSpec, resume: bool, context: Context) returns (o: Outcome<()>)
      requires Wired() && Inv(S()) && spec.Valid() && runnerId != ""
      requires S().journal.Some? ==> CanClear(S())
      modifies hands.plant.Frame()
      ensures Inv(S()) && Keeps(old(S()), S())
      ensures Others(old(S()).rows, S().rows, spec.contract.taskId)
      ensures Ran(old(S()), S(), spec, context, o)
      ensures o.Done? ==> Runnable(old(S()), spec, resume, context)
      ensures hands.calm && Runnable(old(S()), spec, resume, context) ==> o.Done?
      ensures hands.calm && later.calm && !o.Done? ==>
                o.Raised? && (S() == old(S()) || S() == old(S()).(journal := None, deeds := S().deeds))
    {
      hide Inv, CanBegin, CanWrite, CanClear;
      var task := spec.contract.taskId;
      RowIsIdle(S(), task);
      var existing :- hands.GetRow(task);
      if existing.Some? {
        if existing.value.fingerprint.None? {
          return Raised(StorageError);
        }
        if existing.value.fingerprint != Some(spec.contract) {
          return Raised(StorageError);
        }
      }
      if existing.Some? && existing.value.status == Completed {
        if resume {
          o := hands.Try();                    // delete its conversation
          return;
        }
        return Raised(OtherError);
      }
      if existing.Some? && existing.value.status == Running {
        return Raised(RecoveryIncomplete);     // only a journal can recover it
      }
      if existing.Some? && existing.value.status == Failed && !resume {
        return Raised(OtherError);
      }
      o := RunNext(spec, existing, context);
    }

    method RunNext(spec: TaskSpec, existing: Option<Row>, context: Context) returns (o: Outcome<()>)
      requires Wired() && Inv(S()) && spec.Valid() && runnerId != ""
      requires S().journal.Some? ==> CanClear(S())
      requires var task := spec.contract.taskId;
               if task !in S().rows then existing == None
               else existing == Some(S().rows[task]) && existing.value.status == Failed
                    && existing.value.fingerprint == Some(spec.contract)
      modifies hands.plant.Frame()
      ensures Inv(S()) && Keeps(old(S()), S())
      ensures Others(old(S()).rows, S().rows, spec.contract.taskId)
      ensures Ran(old(S()), S(), spec, context, o)
      ensures o.Done? ==> Runnable(old(S()), spec, true, context)
      ensures hands.calm && Runnable(old(S()), spec, true, context) ==> o.Done?
      ensures hands.calm && later.calm && !o.Done? ==>
                o.Raised? && S() == old(S()).(journal := None, deeds := S().deeds)
    {
      hide Inv, CanBegin, CanWrite, Keeps, CanClear, Plant.S;
      KeepsChains();
      var task := spec.contract.taskId;
      var attempt := if existing.Some? then existing.value.attempt + 1 else 1;
      var e := Entry(task, runnerId, attempt, Starting, spec.contract, spec.names, None, None, None, None, None);
      o := RunFresh(e, context);
    }

    method RunFresh(e: Entry, context: Context) returns (o: Outcome<()>)
      requires Wired() && Inv(S()) && (S().journal.Some? ==> CanClear(S()))
      requires e == Fresh(e, Starting) && WellFormed(e) && (NoRow(S(), e) || PreviousFailed(S(), e))
      modifies hands.plant.Frame()
      ensures Inv(S()) && Keeps(old(S()), S())
      ensures Others(old(S()).rows, S().rows, e.task)
      ensures S().sends == old(S()).sends || S().sends == old(S()).sends + multiset{KeyOf(e)}
      ensures o.Done? ==> S().journal == None && Delivered(S(), e)
                          && S().sends == old(S()).sends + multiset{KeyOf(e)}
      ensures o.Done? ==> Bears(S(), e, context)
      ensures o.Done? ==> Startable(old(S()), e, context)
      ensures hands.calm && Startable(old(S()), e, context) ==> o.Done?
      ensures hands.calm && later.calm && !o.Done? ==>
                o.Raised? && S() == old(S()).(journal := None, deeds := S().deeds)
    {
      hide Inv, CanBegin, CanWrite, CanClear, Delivered, Keeps, Plant.S;
      hide Begins, Startable, Bears, AfterWrite, WellFormed, NoRow, PreviousFailed;
      KeepsChains();
      StartWritable(S(), e);
      BeginsAfterWrite(S(), e, context);
      var _ :- hands.WriteJournal(e);
      o := RunAttempt(e, context, None);
    }
  }

  // What one call has done: at most one prompt went out, for the next attempt; a call that
  // returns has completed that attempt with exactly one prompt, or found the task finished.
  ghost predicate Ran(s: State, s': State, spec: TaskSpec, context: Context, o: Outcome<()>) {
    var task := spec.contract.taskId;
    && (s'.sends == s.sends || s'.sends == s.sends + multiset{NextKey(s, task)})
    && (o.Done? ==>
          && Finished(s', task)
          && if Finished(s, task) then s' == s
             else
               && HoldsVerdict(s'.rows[task], NextKey(s, task), s'.verdicts)
               && s'.rows[task].fingerprint == Some(spec.contract)
               && s'.rows[task].logicalId == EffectiveId(context, task) && s'.rows[task].dataset == context.dataset
               && (NextKey(s, task), Wrote(CleanupPending)) in s'.deeds
               && s'.journal == None && s'.sends == s.sends + multiset{NextKey(s, task)}
               && s'.rows[task].attempt == NextKey(s, task).attempt)
  }

  // If the journal still names the attempt, its composer was dirty: Send may be near.
  predicate NearSend(s: State, e: Entry) {
    s.journal.Some? && KeyOf(s.journal.value) == KeyOf(e) ==> Rank(s.journal.value.phase) >= Rank(ComposerDirty)
  }

  lemma SentIsNear(s: State, e: Entry)
    requires Inv(s) && KeyOf(e) in s.sends
    ensures NearSend(s, e)
  {
  }

  lemma NothingIsNear(s: State, e: Entry)
    ensures s.journal.None? ==> NearSend(s, e)
  {
  }

  function NextKey(s: State, task: string): Key {
    Key(task, if task in s.rows then s.rows[task].attempt + 1 else 1)
  }

  predicate Finished(s: State, task: string) {
    task in s.rows && s.rows[task].status == Completed
  }

  // The storage row allows a run of this task.
  predicate Runnable(s: State, spec: TaskSpec, resume: bool, context: Context) {
    var task := spec.contract.taskId;
    task !in s.rows ||
    (&& s.rows[task].fingerprint == Some(spec.contract) && resume
     && (s.rows[task].status == Completed ||
         s.rows[task].logicalId == EffectiveId(context, task)))
  }

  // Without a journal, or under one that could be cleared, every row is failed or completed.
  lemma RowIsIdle(s: State, task: string)
    requires Inv(s) && (s.journal.Some? ==> CanClear(s))
    ensures task in s.rows ==> s.rows[task].status == Failed || s.rows[task].status == Completed
    ensures task in s.rows ==> s.rows[task].fingerprint.Some?
    ensures s.live == {}
  {
  }

  lemma BeginsAfterWrite(s: State, e: Entry, context: Context)
    requires Inv(s) && (s.journal.Some? ==> CanClear(s))
    requires e == Fresh(e, Starting) && (NoRow(s, e) || PreviousFailed(s, e))
    ensures AfterWrite(s, e) == s.(journal := Some(e), deeds := AfterWrite(s, e).deeds)
    ensures Begins(AfterWrite(s, e), e, None)
    ensures CanBegin(AfterWrite(s, e), e, context, None) == Startable(s, e, context)
  {
    RowIsIdle(s, e.task);
  }

  // The entry names the message the prompt became and a durable conversation that holds it.
  predicate Named(s: State, e: Entry) {
    && KeyOf(e) in s.posted && e.userMessage == Some(s.posted[KeyOf(e)])
    && e.conversation.Some? && Shown(s, e.conversation.value, s.posted[KeyOf(e)])
  }

  lemma KnownIsNamed(s: State, e: Entry)
    requires Inv(s) && s.journal == Some(e) && e.phase == ConversationKnown
    ensures Named(s, e)
  {
    hide Sound, Faithful, Judged, Examined, WriteAhead, Accounted, AtMostOnce, Traced;
  }

  lemma KnownWritable(s: State, p: Entry, e: Entry)
    requires Inv(s) && InFlight(s, p) && p.phase == SubmissionStarted
    requires SameAttempt(p, e) && e.phase == ConversationKnown
    requires Named(s, e)
    ensures CanWrite(s, e)
  {
    hide Sound, Faithful, Judged, Examined, WriteAhead, Traced, AtMostOnce;
  }

  lemma RefusedStart(s: State, e: Entry)
    requires s.journal == Some(e) && Begins(s, e, None)
    ensures CanClear(s)
  {
  }

  // The journal stands at this entry, and the row and the VM of the attempt are up.
  predicate InFlight(s: State, e: Entry) {
    s.journal == Some(e) && IsRunning(s, e) && VmReady(s, e)
  }

  lemma StillInFlight(s: State, threads: map<string, string>, e: Entry)
    ensures InFlight(s.(threads := threads), e) == InFlight(s, e)
  {
  }

  lemma HasStarted(s: State, e: Entry)
    requires Inv(s) && Opened(s, e)
    ensures (KeyOf(e), Wrote(Starting)) in s.deeds
    ensures s.journal.value.phase == ComposerDirty ==> (KeyOf(e), Wrote(ComposerDirty)) in s.deeds
  {
    hide Sound, Faithful, Judged, Examined, WriteAhead, Traced, AtMostOnce, Accounted, EntryOk;
    var k, p := KeyOf(e), s.journal.value.phase;
    assert Prior(k, p, s.hooked, s.deeds);
    assert (k, Wrote(AppsPrepared)) in s.deeds ==> Prior(k, AppsPrepared, s.hooked, s.deeds);
    assert (k, Wrote(BenchmarkPreparing)) in s.deeds ==> Prior(k, BenchmarkPreparing, s.hooked, s.deeds);
    assert (k, Wrote(BenchmarkReady)) in s.deeds ==> Prior(k, BenchmarkReady, s.hooked, s.deeds);
  }

  lemma SubmissionWritable(s: State, e: Entry, submission: Entry)
    requires Inv(s) && Opened(s, e) && VmReady(s, e)
    requires submission == Fresh(e, SubmissionStarted) && (KeyOf(e), Wrote(ComposerDirty)) in s.deeds
    ensures CanWrite(s, submission)
    ensures KeyOf(e) !in s.sends
    ensures s.journal != Some(submission)
    ensures IsRunning(s, e) && VmReady(s, e)
  {
    hide Sound, Faithful, Judged, Examined, WriteAhead, Traced, AtMostOnce;
  }

  lemma ResubmissionWritable(s: State, p: Entry, e: Entry)
    requires Inv(s) && s.journal == Some(p) && p.phase == SubmissionStarted
    requires e == p.(userMessage := e.userMessage)
    requires Truthy(e.userMessage) ==> KeyOf(e) in s.posted && s.posted[KeyOf(e)] == e.userMessage.value
    ensures CanWrite(s, e)
  {
    hide Sound, Faithful, Judged, Examined, WriteAhead, Traced, AtMostOnce;
  }

  // A journal entry of the same attempt, written from scratch.
  function Fresh(e: Entry, phase: Phase): Entry {
    Entry(e.task, e.runner, e.attempt, phase, e.fingerprint, e.names, None, None, None, None, None)
  }

  // The journal stands before Send in this attempt, whose row is running.
  predicate Opened(s: State, e: Entry) {
    && s.journal.Some? && SameAttempt(s.journal.value, e)
    && Rank(s.journal.value.phase) < Rank(SubmissionStarted) && IsRunning(s, e)
  }

  // A new attempt, or one to be resumed by runtime hooks.
  predicate Begins(s: State, e: Entry, resume: Option<Entry>) {
    if resume.None? then
      e.phase == Starting && (NoRow(s, e) || PreviousFailed(s, e)) && VmOf(e) !in s.live
    else
      resume == Some(e) && Hooked(s, e) && Rank(e.phase) < Rank(SubmissionStarted) && IsRunning(s, e)
  }

  predicate CanBegin(s: State, e: Entry, context: Context, resume: Option<Entry>) {
    if resume.None? then Startable(s, e, context) else !(e.phase == Starting && VmRefused(s, e))
  }

  lemma ResumableVm(s: State, e: Entry)
    requires Inv(s) && s.journal == Some(e) && Hooked(s, e) && IsRunning(s, e)
    requires Preparing(e.phase)
    ensures VmReady(s, e)
  {
  }

  lemma PreparingWritable(s: State, e: Entry)
    requires Inv(s) && Opened(s, e) && VmReady(s, e)
    requires Preparing(e.phase) && (e.phase == BenchmarkPreparing || e.phase == BenchmarkReady ==> Hooked(s, e))
    requires Prior(KeyOf(e), e.phase, s.hooked, s.deeds)
    ensures CanWrite(s, e)
  {
    hide Sound, Faithful, Judged, Examined, InOrder, Prior, WriteAhead, Traced, AtMostOnce;
  }

  // The row of the attempt is completed with the last verdict of the attempt.
  predicate CompletedRowOf(s: State, e: Entry) {
    OwnRow(s, e) && s.rows[e.task].status == Completed && HoldsVerdict(s.rows[e.task], KeyOf(e), s.verdicts)
  }

  // The journal has said so as well.
  predicate Delivered(s: State, e: Entry) {
    CompletedRowOf(s, e) && (KeyOf(e), Wrote(CleanupPending)) in s.deeds
  }

  predicate CompletedWith(s: State, e: Entry, captured: Captured) {
    Delivered(s, e) && RowHolds(s.rows[e.task], captured)
  }

  lemma RunningHasNotFailed(e: Entry)
    ensures forall s | IsRunning(s, e) :: NotFailed(s.rows, KeyOf(e))
  {
  }

  lemma OpenedIsOpen(s: State, e: Entry)
    requires Opened(s, e)
    ensures NotFailed(s.rows, KeyOf(e))
  {
  }

  lemma InFlightIsOpen(s: State, e: Entry)
    requires InFlight(s, e)
    ensures NotFailed(s.rows, KeyOf(e))
  {
  }

  lemma CompletedAttempt(s: State, e: Entry)
    requires Delivered(s, e)
    ensures e.task in s.rows && s.rows[e.task].attempt == e.attempt
  {
  }

  lemma CleanupWritable(s: State, e: Entry)
    requires Inv(s) && s.journal.Some? && SameAttempt(s.journal.value, e)
    requires CompletedRowOf(s, e) && e.phase == CleanupPending
    ensures CanWrite(s, e)
  {
    hide Sound, Accounted, Faithful, Judged, Examined, WriteAhead, Traced, AtMostOnce;
  }

  lemma UncheckpointedDeliverable(s: State, captured: Captured)
    requires Inv(s) && s.journal.Some? && IsRunning(s, s.journal.value)
    requires Evaluable(s, s.journal.value, captured) && !Hooked(s, s.journal.value)
    ensures Deliverable(s, s.journal.value, captured)
  {
  }

  lemma CheckpointedDeliverable(s: State, captured: Captured)
    requires Inv(s) && s.journal.Some? && IsRunning(s, s.journal.value)
    requires Evaluable(s, s.journal.value, captured) && s.journal.value.phase == CandidateCheckpointed
    requires s.journal.value.candidate.Some?
             && Grade(KeyOf(s.journal.value), s.journal.value.candidate.value, captured) in s.graded
    ensures Deliverable(s, s.journal.value, captured)
  {
  }

  lemma ConversationWritable(s: State, e: Entry, captured: Captured)
    requires Inv(s) && s.journal == Some(e) && e.phase == ConversationKnown
    requires IsRunning(s, e) && Evaluable(s, e, captured) && Hooked(s, e)
    requires s.capture == Some(CaptureFile(e.task, e.attempt, e.runner, e.fingerprint, captured))
    ensures CanWrite(s, e.(phase := ConversationCheckpointed, conversation := Some(captured.conversation),
                           digest := Some(Sha256(s.capture.value))))
  {
    hide Sound, Faithful, Judged, Examined, WriteAhead, Traced, AtMostOnce;
  }

  lemma EvaluatorWritable(s: State, e: Entry, record: Json)
    requires Inv(s) && s.journal == Some(e) && e.phase == CandidateCheckpointed
    ensures var e' := e.(evaluator := Some(record));
            CanWrite(s, e') && AfterWrite(s, e') == s.(journal := Some(e'))
  {
    hide Sound, Faithful, Judged, Examined, WriteAhead, Traced, AtMostOnce;
  }

  lemma CandidateSealed(s: State, e: Entry)
    requires Inv(s) && s.journal == Some(e) && e.phase == CandidateCheckpointed
    ensures e.candidate.Some? && KeyOf(e) in s.sealed && s.sealed[KeyOf(e)] == e.candidate.value
  {
  }

  lemma Gradable(s: State, entry: Entry, e: Entry, captured: Captured)
    requires s.journal == Some(e) && entry.phase == CandidateCheckpointed && entry.candidate.Some?
    requires e == entry.(evaluator := e.evaluator)
    requires s.capture.Some? && s.capture.value.captured == captured
    ensures CanGrade(s, entry.candidate.value, captured) && KeyOf(e) == KeyOf(entry)
  {
  }

  lemma CandidateWritable(s: State, e: Entry, candidate: Candidate)
    requires Inv(s) && s.journal == Some(e) && e.phase == ConversationCheckpointed && IsRunning(s, e)
    ensures CanWrite(s, e.(phase := CandidateCheckpointed, candidate := Some(candidate)))
  {
    hide Sound, Faithful, Judged, Examined, WriteAhead, Traced, AtMostOnce;
  }

  lemma EvaluatedItself(s: State)
    requires s.journal.Some?
    ensures Evaluated(s, s)
  {
  }

  lemma CandidateWritten(s: State, e: Entry, candidate: Candidate, captured: Captured)
    requires s.journal == Some(e) && e.phase == ConversationCheckpointed && Evaluable(s, e, captured)
    ensures var e' := e.(phase := CandidateCheckpointed, candidate := Some(candidate));
            var s' := AfterWrite(s, e');
            && Evaluated(s, s') && s'.verdicts == s.verdicts && s'.journal == Some(e') && Evaluable(s', e', captured)
  {
  }

  // The capture may be evaluated: it belongs to the known conversation, or it is the
  // checkpointed one.
  ghost predicate Evaluable(s: State, e: Entry, captured: Captured) {
    && e.conversation == Some(captured.conversation)
    && e.task in s.rows && s.rows[e.task].conversation == e.conversation
    && (e.phase == ConversationKnown ||
        (Checkpoint(e.phase) && s.capture.Some? && s.capture.value.captured == captured))
  }

  // Evaluation moves the journal of the attempt forward and touches no row, VM or prompt.
  ghost predicate Evaluated(s: State, s': State) {
    && s.journal.Some? && s'.journal.Some? && SameAttempt(s.journal.value, s'.journal.value)
    && Rank(s.journal.value.phase) <= Rank(s'.journal.value.phase)
    && s'.journal.value.conversation == s.journal.value.conversation
    && s'.journal.value.userMessage == s.journal.value.userMessage
    && s'.rows == s.rows && s'.live == s.live && s'.sends == s.sends
  }
}
