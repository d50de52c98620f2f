// What a new runner process does with the journal it finds.
module Recovery {
  import opened Basics
  import opened Benchmark
  import opened Storage
  import opened Journal
  import opened Protocol
  import opened Effects
  import opened Requests
  import opened Runner

  // ---------------------------------------------------------------- when recovery succeeds

  // The benchmark still describes the journal's attempt.
  predicate Known(s: State, tasks: map<string, TaskSpec>, e: Entry) {
    && e.task in tasks && tasks[e.task].contract == e.fingerprint
    && (e.task !in s.rows ==> tasks[e.task].names == e.names)
  }

  // The crash states recovery refuses.
  ghost predicate Stuck(s: State, e: Entry) {
    || (e.phase == SubmissionStarted && IsRunning(s, e) && !Truthy(e.userMessage))
    || (e.phase == Starting && PreviousFailed(s, e))
    || (e.phase == Starting && NoRow(s, e) && Hooked(s, e))
    || (e.phase == Starting && IsRunning(s, e) && Hooked(s, e) && VmRefused(s, e))
  }

  ghost predicate Recoverable(s: State, tasks: map<string, TaskSpec>) {
    s.journal.Some? ==> Known(s, tasks, s.journal.value) && !Stuck(s, s.journal.value)
  }

  predicate FailedRowOf(s: State, e: Entry) {
    OwnRow(s, e) && s.rows[e.task].status == Failed
  }

  // What a recovery that returns has made of the attempt: an attempt that was over stays
  // as it was, one that may not have been submitted is failed unless hooks resume it, and
  // every other one is completed, with the checkpointed messages if there were any.
  ghost predicate Resolved(s: State, s': State, e: Entry) {
    && s'.journal == None
    && if e.task in s.rows && s.rows[e.task].status != Running then
         s'.rows == s.rows && s'.sends == s.sends
       else if Rank(e.phase) < Rank(SubmissionStarted) && !Hooked(s, e) then
         s'.sends == s.sends && if e.task in s.rows then FailedRowOf(s', e) else s'.rows == s.rows
       else
         && Delivered(s', e)
         && s'.sends == s.sends + (if Rank(e.phase) < Rank(SubmissionStarted) then multiset{KeyOf(e)} else multiset{})
         && (Checkpoint(e.phase) ==>
               KeyOf(e) in s.transcripts && CompletedWith(s', e, s.transcripts[KeyOf(e)]))
  }

  // The UI names an attempt runs under are those its row was started with.
  function RecoveryNames(spec: TaskSpec, existing: Option<Row>): Option<Names> {
    if existing.None? || spec.contract.apps == {} then Some(spec.names)
    else if existing.value.provenance.None? then None
    else if existing.value.provenance.value.Keys != spec.contract.apps then None
    else existing.value.provenance
  }

  // ---------------------------------------------------------------- the branches

  // The attempt is over; only its remains are left.
  method TakeDownRemains(hands: Hands, e: Entry) returns (o: Outcome<()>)
    requires Inv(hands.S()) && hands.S().journal == Some(e)
    requires e.task in hands.S().rows && hands.S().rows[e.task].status != Running
    modifies hands.plant.Frame()
    ensures Inv(hands.S()) && Keeps(old(hands.S()), hands.S())
    ensures hands.S().sends == old(hands.S()).sends && hands.S().rows == old(hands.S()).rows
    ensures hands.S().verdicts == old(hands.S()).verdicts
    ensures o.Done? ==> hands.S().journal == None
    ensures hands.calm ==> o.Done?
  {
    hide Inv, Keeps, Plant.S;
    KeepsChains();
    var _ :- hands.Try();                      // delete the conversation of a completed row
    o := Remove(hands, e);
  }

  // Nothing was submitted: the VM goes, an open row fails, the journal goes.
  method CloseUnsubmitted(hands: Hands, e: Entry, existing: Option<Row>) returns (o: Outcome<()>)
    requires hands.Wired() && Inv(hands.S()) && hands.S().journal == Some(e)
    requires e.phase == Starting || e.phase == AppsPrepared || e.phase == ComposerDirty
    requires !Hooked(hands.S(), e)
    requires existing == if e.task in hands.S().rows then Some(hands.S().rows[e.task]) else None
    modifies hands.plant.Frame()
    ensures Inv(hands.S()) && Keeps(old(hands.S()), hands.S())
    ensures Others(old(hands.S()).rows, hands.S().rows, e.task)
    ensures hands.S().sends == old(hands.S()).sends
    ensures o.Done? ==> hands.S().journal == None
                        && if existing.None? then hands.S().rows == old(hands.S()).rows else FailedRowOf(hands.S(), e)
    ensures o.Done? ==> existing.None? || IsRunning(old(hands.S()), e)
    ensures hands.calm && (existing.None? || IsRunning(old(hands.S()), e)) ==> o.Done?
    ensures hands.calm && !o.Done? ==> hands.S().journal == old(hands.S()).journal && o.Raised?
  {
    hide Inv, Keeps, Plant.S, CanDestroy, Others;
    KeepsChains();
    OpenRow(hands.S(), e);
    UnsubmittedMayGo(hands.S(), e);
    var _ :- hands.ResetVm(e);
    if existing.None? {
      o := hands.ClearJournal();
    } else if existing.value.status == Running && existing.value.attempt == e.attempt
              && existing.value.runner == Some(e.runner) && !Truthy(existing.value.conversation) {
      o := FailAndClear(hands, e);
    } else {
      o := Raised(RecoveryIncomplete);
    }
  }

  lemma UnsubmittedMayGo(s: State, e: Entry)
    requires s.journal == Some(e) && !Hooked(s, e) && Rank(e.phase) < Rank(SubmissionStarted)
    ensures CanDestroy(s) && Others(s.rows, s.rows, e.task)
  {
  }

  method FailAndClear(hands: Hands, e: Entry) returns (o: Outcome<()>)
    requires hands.Wired() && Inv(hands.S()) && hands.S().journal == Some(e)
    requires IsRunning(hands.S(), e) && VmOf(e) !in hands.S().live
    modifies hands.plant.Frame()
    ensures Inv(hands.S()) && Keeps(old(hands.S()), hands.S())
    ensures Others(old(hands.S()).rows, hands.S().rows, e.task)
    ensures hands.S().sends == old(hands.S()).sends
    ensures o.Done? ==> hands.S().journal == None && FailedRowOf(hands.S(), e)
    ensures hands.calm ==> o.Done?
  {
    hide Inv, Keeps, Plant.S;
    KeepsChains();
    var _ :- FailRow(hands, e, "InterruptedBeforeSubmission", "runner stopped before Send");
    o := hands.ClearJournal();
  }

  lemma OpenRow(s: State, e: Entry)
    requires Inv(s) && s.journal == Some(e) && Rank(e.phase) < Rank(SubmissionStarted)
    ensures e.task in s.rows && s.rows[e.task].status == Running ==>
              IsRunning(s, e) && s.rows[e.task].conversation == None
  {
    hide StorageHistory.Sound, Accounted, Faithful, Judged, Examined;
  }

  // The checkpointed transcript is graded and delivered without the teacher.
  method ResumeCheckpoint(hands: Hands, runner: BenchmarkRunner, e: Entry) returns (o: Outcome<()>)
    requires runner.hands == hands && hands.Wired() && Inv(hands.S()) && hands.S().journal == Some(e)
    requires Checkpoint(e.phase) && IsRunning(hands.S(), e)
    modifies hands.plant.Frame()
    ensures Inv(hands.S()) && Keeps(old(hands.S()), hands.S())
    ensures Others(old(hands.S()).rows, hands.S().rows, e.task)
    ensures hands.S().sends == old(hands.S()).sends
    ensures o.Done? ==> hands.S().journal == None
                        && KeyOf(e) in old(hands.S()).transcripts
                        && CompletedWith(hands.S(), e, old(hands.S()).transcripts[KeyOf(e)])
    ensures hands.calm ==> o.Done?
  {
    hide Inv, Keeps, Plant.S;
    KeepsChains();
    CheckpointReady(hands.S(), e);
    var captured :- hands.LoadCapture(e);
    var _ :- hands.AssertResume(e);
    o := runner.Deliver(e, captured);
  }

  lemma CheckpointReady(s: State, e: Entry)
    requires Inv(s) && s.journal == Some(e) && Checkpoint(e.phase) && IsRunning(s, e)
    ensures CheckpointOk(s, e)
  {
  }

  // The conversation is known: read it back and deliver it.
  method CompleteRecovery(hands: Hands, runner: BenchmarkRunner, e: Entry, conversation: string)
    returns (o: Outcome<()>)
    requires runner.hands == hands && hands.Wired() && Inv(hands.S()) && hands.S().journal == Some(e)
    requires e.phase == ConversationKnown && e.conversation == Some(conversation) && IsRunning(hands.S(), e)
    modifies hands.plant.Frame()
    ensures Inv(hands.S()) && Keeps(old(hands.S()), hands.S())
    ensures Others(old(hands.S()).rows, hands.S().rows, e.task)
    ensures hands.S().sends == old(hands.S()).sends
    ensures o.Done? ==> hands.S().journal == None && Delivered(hands.S(), e)
    ensures hands.calm ==> o.Done?
  {
    hide Inv, Keeps, Plant.S;
    KeepsChains();
    KnownReady(hands.S(), e);
    KnownIsNamed(hands.S(), e);
    var _ :- hands.AssertResume(e);
    var captured :- hands.ReadBack(conversation, e.userMessage.value);
    var _ :- hands.Try();                      // runtime metadata
    o := runner.AssignAndDeliver(e, captured);
  }

  lemma KnownReady(s: State, e: Entry)
    requires Inv(s) && s.journal == Some(e) && e.phase == ConversationKnown && IsRunning(s, e)
    ensures KnownOk(s, e)
  {
  }

  // Only the user message is known: find its conversation, then deliver it.
  method RecoverCandidate(hands: Hands, runner: BenchmarkRunner, e: Entry) returns (o: Outcome<()>)
    requires runner.hands == hands && hands.Wired() && Inv(hands.S()) && hands.S().journal == Some(e)
    requires e.phase == SubmissionStarted && Truthy(e.userMessage) && IsRunning(hands.S(), e)
    modifies hands.plant.Frame()
    ensures Inv(hands.S()) && Keeps(old(hands.S()), hands.S())
    ensures Others(old(hands.S()).rows, hands.S().rows, e.task)
    ensures hands.S().sends == old(hands.S()).sends
    ensures o.Done? ==> hands.S().journal == None && Delivered(hands.S(), e)
    ensures hands.calm ==> o.Done?
  {
    hide Inv, Keeps, Plant.S;
    KeepsChains();
    SubmittedReady(hands.S(), e);
    var _ :- hands.AssertResume(e);
    var id :- hands.FindConversation(e.userMessage.value);
    var captured :- hands.ReadBack(id, e.userMessage.value);
    var known := Fresh(e, ConversationKnown)
                 .(conversation := Some(captured.conversation), userMessage := e.userMessage);
    var _ :- runner.Know(known, e);
    o := runner.AssignAndDeliver(known, captured);
  }

  lemma SubmittedReady(s: State, e: Entry)
    requires Inv(s) && s.journal == Some(e) && e.phase == SubmissionStarted && IsRunning(s, e)
    ensures SubmittedOk(s, e)
  {
  }

  // ---------------------------------------------------------------- reconcile_journal

  // From any crash state: when it returns, nothing of the pending attempt is left open.
  // In a run without further fault it returns exactly from the recoverable states, and
  // from the others it raises with the journal still in place.
  method ReconcileJournal(runner: BenchmarkRunner, tasks: map<string, TaskSpec>, context: Context)
    returns (o: Outcome<()>)
    requires runner.Wired() && Inv(runner.S())
    requires forall t | t in tasks :: tasks[t].Valid()
    modifies runner.hands.plant.Frame()
    ensures Inv(runner.S()) && Keeps(old(runner.S()), runner.S())
    ensures old(runner.S()).journal.None? ==> runner.S() == old(runner.S())
    ensures old(runner.S()).journal.Some? ==>
              Others(old(runner.S()).rows, runner.S().rows, old(runner.S()).journal.value.task)
    ensures o.Done? ==> runner.S().journal == None
    ensures o.Done? ==> if old(runner.S()).journal.None? then runner.S() == old(runner.S())
                        else Resolved(old(runner.S()), runner.S(), old(runner.S()).journal.value)
    ensures o.Done? ==> Recoverable(old(runner.S()), tasks)
    ensures runner.hands.calm && Recoverable(old(runner.S()), tasks) ==> o.Done?
    ensures runner.hands.calm && !o.Done? ==> o.Raised? && runner.S().journal == old(runner.S()).journal
  {
    hide Inv, Stuck, RecoveryNames, Recoverable, Keeps, Plant.S;
    KeepsChains();
    var hands := runner.hands;
    NothingPending(hands.S(), tasks);
    var loaded :- hands.LoadJournal();
    if loaded.None? {
      return Done(());
    }
    var e := loaded.value;
    if e.task !in tasks {
      return Raised(RecoveryIncomplete);
    }
    var spec := tasks[e.task];
    if e.fingerprint != spec.contract {
      return Raised(RecoveryIncomplete);
    }
    var existing :- hands.GetRow(e.task);
    JournalAndRow(hands.S(), e);
    NamesDecide(hands.S(), tasks, e, existing);
    if existing.Some? && existing.value.fingerprint != Some(spec.contract) {
      return Raised(RecoveryIncomplete);
    }
    var names := RecoveryNames(spec, existing);
    if names.None? || names.value != e.names {
      return Raised(RecoveryIncomplete);
    }
    o := Resolve(runner, e, existing, context);
  }

  lemma NothingPending(s: State, tasks: map<string, TaskSpec>)
    ensures s.journal.None? ==> Recoverable(s, tasks)
    ensures s.journal.Some? && s.journal.value.task !in tasks ==> !Recoverable(s, tasks)
    ensures (s.journal.Some? && s.journal.value.task in tasks
             && tasks[s.journal.value.task].contract != s.journal.value.fingerprint) ==> !Recoverable(s, tasks)
  {
  }

  // The UI names agree whenever the row is the attempt's own.
  lemma NamesDecide(s: State, tasks: map<string, TaskSpec>, e: Entry, existing: Option<Row>)
    requires Inv(s) && s.journal == Some(e)
    requires e.task in tasks && tasks[e.task].contract == e.fingerprint && tasks[e.task].Valid()
    requires existing == if e.task in s.rows then Some(s.rows[e.task]) else None
    ensures RecoveryNames(tasks[e.task], existing) != Some(e.names) ==> !Recoverable(s, tasks)
    ensures RecoveryNames(tasks[e.task], existing) == Some(e.names) ==> (Recoverable(s, tasks) <==> !Stuck(s, e))
  {
    hide Inv, Stuck;
    JournalAndRow(s, e);
    if OwnRow(s, e) {
      assert e.fingerprint.apps == {} ==> tasks[e.task].names == e.names;
    }
  }

  // What the invariant says about the row the journal finds.
  lemma JournalAndRow(s: State, e: Entry)
    requires Inv(s) && s.journal == Some(e)
    ensures e.names.Keys == e.fingerprint.apps
    ensures e.task in s.rows ==> s.rows[e.task].fingerprint == Some(e.fingerprint)
    ensures NoRow(s, e) || (e.phase == Starting && PreviousFailed(s, e)) || OwnRow(s, e)
    ensures NoRow(s, e) ==> e.phase == Starting
    ensures e.phase == Starting && PreviousFailed(s, e) ==> Stuck(s, e)
    ensures OwnRow(s, e) && s.rows[e.task].status != Running ==> !Stuck(s, e)
  {
  }

  lemma RemainingCases(s: State, e: Entry)
    requires Inv(s) && s.journal == Some(e)
    ensures e.task in s.rows && s.rows[e.task].status == Completed ==> OwnRow(s, e)
    ensures e.task !in s.rows || s.rows[e.task].status != Pending
    ensures e.task in s.rows && s.rows[e.task].status == Failed ==>
              (PreviousFailed(s, e) && e.phase == Starting) || OwnRow(s, e)
    ensures e.task in s.rows && s.rows[e.task].status == Running ==> IsRunning(s, e)
  {
  }

  method Resolve(runner: BenchmarkRunner, e: Entry, existing: Option<Row>, context: Context) returns (o: Outcome<()>)
    requires runner.Wired() && Inv(runner.S()) && runner.S().journal == Some(e)
    requires existing == if e.task in runner.S().rows then Some(runner.S().rows[e.task]) else None
    modifies runner.hands.plant.Frame()
    ensures Inv(runner.S()) && Keeps(old(runner.S()), runner.S())
    ensures Others(old(runner.S()).rows, runner.S().rows, e.task)
    ensures o.Done? ==> runner.S().journal == None && Resolved(old(runner.S()), runner.S(), e)
    ensures o.Done? ==> !Stuck(old(runner.S()), e)
    ensures runner.hands.calm && !Stuck(old(runner.S()), e) ==> o.Done?
    ensures runner.hands.calm && !o.Done? ==> o.Raised? && runner.S().journal == old(runner.S()).journal
  {
    hide Inv, Stuck, Keeps, Plant.S;
    KeepsChains();
    var hands := runner.hands;
    JournalAndRow(runner.S(), e);
    RemainingCases(runner.S(), e);
    if existing.Some? && existing.value.status == Completed {
      o := TakeDownRemains(hands, e);
      return;
    }
    if existing.Some? && existing.value.status == Failed && existing.value.attempt == e.attempt
       && existing.value.runner == Some(e.runner) {
      o := TakeDownRemains(hands, e);
      return;
    }
    var matching := existing.Some? && existing.value.status == Running && existing.value.attempt == e.attempt
                    && existing.value.runner == Some(e.runner);
    if Rank(e.phase) < Rank(SubmissionStarted) {
      o := ResolveUnsubmitted(runner, e, existing, matching, context);
    } else {
      o := ResolveSubmitted(runner, e, existing, matching);
    }
  }

  // Before Send: hooks resume the attempt, everything else is closed.
  method ResolveUnsubmitted(runner: BenchmarkRunner, e: Entry, existing: Option<Row>, matching: bool, context: Context)
    returns (o: Outcome<()>)
    requires runner.Wired() && Inv(runner.S()) && runner.S().journal == Some(e)
    requires Rank(e.phase) < Rank(SubmissionStarted)
    requires Found(runner.S(), e, existing, matching)
    modifies runner.hands.plant.Frame()
    ensures Inv(runner.S()) && Keeps(old(runner.S()), runner.S())
    ensures Others(old(runner.S()).rows, runner.S().rows, e.task)
    ensures o.Done? ==> runner.S().journal == None && Resolved(old(runner.S()), runner.S(), e)
    ensures o.Done? ==> !Stuck(old(runner.S()), e)
    ensures runner.hands.calm && !Stuck(old(runner.S()), e) ==> o.Done?
    ensures runner.hands.calm && !o.Done? ==> o.Raised? && runner.S().journal == old(runner.S()).journal
  {
    hide Inv, Stuck, Found, OwnRow, Delivered, FailedRowOf, VmRefused, Keeps;
    KeepsChains();
    var hands := runner.hands;
    UnsubmittedCases(runner.S(), e, existing, matching);
    if e.task in hands.plant.hooked {
      if !matching {
        return Raised(RecoveryIncomplete);
      }
      o := runner.RunAttempt(e, context, Some(e));
    } else if e.phase == Starting || e.phase == AppsPrepared || e.phase == ComposerDirty {
      o := CloseUnsubmitted(hands, e, existing);
    } else {
      o := Raised(RecoveryIncomplete);   // benchmark phases are written under hooks only
    }
  }

  // What recovery knows about the row when the attempt is not over.
  predicate Found(s: State, e: Entry, existing: Option<Row>, matching: bool) {
    && existing == (if e.task in s.rows then Some(s.rows[e.task]) else None)
    && matching == IsRunning(s, e)
    && (matching || (e.phase == Starting && (NoRow(s, e) || PreviousFailed(s, e))))
  }

  lemma UnsubmittedCases(s: State, e: Entry, existing: Option<Row>, matching: bool)
    requires Inv(s) && s.journal == Some(e) && Rank(e.phase) < Rank(SubmissionStarted)
    requires Found(s, e, existing, matching)
    ensures !Hooked(s, e) ==> e.phase == Starting || e.phase == AppsPrepared || e.phase == ComposerDirty
    ensures !Hooked(s, e) ==> (Stuck(s, e) <==> existing.Some? && !IsRunning(s, e))
    ensures Hooked(s, e) ==> (Stuck(s, e) <==> !matching || (e.phase == Starting && VmRefused(s, e)))
    ensures existing == (if e.task in s.rows then Some(s.rows[e.task]) else None)
    ensures matching == IsRunning(s, e)
  {
  }

  // After Send: only what the journal proves about the submission is used.
  method ResolveSubmitted(runner: BenchmarkRunner, e: Entry, existing: Option<Row>, matching: bool)
    returns (o: Outcome<()>)
    requires runner.Wired() && Inv(runner.S()) && runner.S().journal == Some(e)
    requires Rank(e.phase) >= Rank(SubmissionStarted)
    requires Found(runner.S(), e, existing, matching)
    modifies runner.hands.plant.Frame()
    ensures Inv(runner.S()) && Keeps(old(runner.S()), runner.S())
    ensures Others(old(runner.S()).rows, runner.S().rows, e.task)
    ensures runner.S().sends == old(runner.S()).sends
    ensures o.Done? ==> runner.S().journal == None && Resolved(old(runner.S()), runner.S(), e)
    ensures o.Done? ==> !Stuck(old(runner.S()), e)
    ensures runner.hands.calm && !Stuck(old(runner.S()), e) ==> o.Done?
    ensures runner.hands.calm && !o.Done? ==> o.Raised? && runner.S().journal == old(runner.S()).journal
  {
    hide Inv, Stuck, Found, Keeps;
    KeepsChains();
    var hands := runner.hands;
    SubmittedCases(runner.S(), e, existing, matching);
    if Checkpoint(e.phase) {
      if e.task !in hands.plant.hooked {
        return Raised(RecoveryIncomplete);
      }
      if !matching {
        return Raised(RecoveryIncomplete);
      }
      o := ResumeCheckpoint(hands, runner, e);
      return;
    }
    if !matching {
      return Raised(RecoveryIncomplete);
    }
    var conversation := if Truthy(e.conversation) then e.conversation else existing.value.conversation;
    if Truthy(conversation) {
      if !Truthy(e.userMessage) {
        return Raised(RecoveryIncomplete);
      }
      o := CompleteRecovery(hands, runner, e, conversation.value);
      return;
    }
    if e.phase != SubmissionStarted {
      return Raised(RecoveryIncomplete);
    }
    if !Truthy(e.userMessage) {
      return Raised(RecoveryIncomplete);
    }
    o := RecoverCandidate(hands, runner, e);
  }

  lemma SubmittedCases(s: State, e: Entry, existing: Option<Row>, matching: bool)
    requires Inv(s) && s.journal == Some(e) && Rank(e.phase) >= Rank(SubmissionStarted)
    requires Found(s, e, existing, matching)
    ensures existing.Some? && matching && IsRunning(s, e) && e.phase != CleanupPending
    ensures Checkpoint(e.phase) ==> Hooked(s, e) && !Stuck(s, e)
    ensures e.phase == SubmissionStarted ==>
              && !Truthy(e.conversation) && !Truthy(existing.value.conversation)
              && (Stuck(s, e) <==> !Truthy(e.userMessage))
    ensures e.phase == ConversationKnown ==>
              Truthy(e.conversation) && Truthy(e.userMessage) && !Stuck(s, e)
  {
  }
}
