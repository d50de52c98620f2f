// The four storage requests as the runner makes them, for the attempt its journal names.
module Requests {
  import opened Basics
  import opened Storage
  import opened Journal
  import opened Protocol
  import opened Effects

  datatype Context = Context(logicalId: Option<string>, dataset: Json)

  function StartRequest(e: Entry, context: Context): Request {
    Start(e.task, context.logicalId, e.runner, e.attempt, e.fingerprint, e.names, context.dataset)
  }

  // A start is taken from the state before the attempt's row exists.
  predicate Startable(s: State, e: Entry, context: Context) {
    NoRow(s, e) || (PreviousFailed(s, e) && s.rows[e.task].logicalId == LogicalId(StartRequest(e, context)))
  }

  function EffectiveId(context: Context, task: string): string {
    if Truthy(context.logicalId) then context.logicalId.value else task
  }

  // The row of the attempt was started under this logical id, with this dataset.
  predicate Bears(s: State, e: Entry, context: Context) {
    && e.task in s.rows && s.rows[e.task].attempt == e.attempt
    && s.rows[e.task].logicalId == EffectiveId(context, e.task) && s.rows[e.task].dataset == context.dataset
  }

  lemma BearsStays(s: State, s': State, e: Entry, context: Context)
    requires Keeps(s, s') && Bears(s, e, context) && e.task in s'.rows && s'.rows[e.task].attempt == e.attempt
    ensures Bears(s', e, context)
  {
  }

  ghost predicate OnlyRow(s: State, s': State, task: string) {
    task in s'.rows && s' == s.(rows := s.rows[task := s'.rows[task]])
  }

  lemma OthersStay(s: State, task: string)
    ensures forall s' | OnlyRow(s, s', task) :: Others(s.rows, s'.rows, task)
    ensures Others(s.rows, s.rows, task)
  {
  }

  method StartRow(hands: Hands, e: Entry, context: Context) returns (o: Outcome<Row>)
    requires hands.Wired() && Inv(hands.S()) && hands.S().journal == Some(e) && e.phase == Starting
    requires NoRow(hands.S(), e) || PreviousFailed(hands.S(), e)
    modifies hands.plant.Frame()
    ensures Inv(hands.S()) && Keeps(old(hands.S()), hands.S())
    ensures Others(old(hands.S()).rows, hands.S().rows, e.task)
    ensures hands.S() == old(hands.S()) || (IsRunning(hands.S(), e) && OnlyRow(old(hands.S()), hands.S(), e.task))
    ensures o.Done? ==> IsRunning(hands.S(), e) && o.value == hands.S().rows[e.task]
    ensures o.Done? ==> Bears(hands.S(), e, context)
    ensures o == Raised(StorageConflict) ==> hands.S() == old(hands.S())
    ensures o.Done? ==> Startable(old(hands.S()), e, context)
    ensures hands.calm && Startable(old(hands.S()), e, context) ==> o.Done?
    ensures hands.calm ==> !o.Killed?
    ensures o.Raised? ==> IsStorageError(o.exn) || o.exn == Cancelled
    ensures hands.calm && !o.Done? ==> o == Raised(StorageConflict)
    ensures hands.calm && !o.Done? ==> hands.S() == old(hands.S())
  {
    hide Inv, Keeps, Step, Others, NoRow, PreviousFailed;
    ghost var s := hands.S();
    OthersStay(s, e.task);
    StartVerdict(s, e, context);
    o := hands.Request(StartRequest(e, context));
  }

  lemma StartVerdict(s: State, e: Entry, context: Context)
    requires Inv(s) && s.journal == Some(e) && e.phase == Starting
    requires NoRow(s, e) || PreviousFailed(s, e)
    ensures Step(s.rows, StartRequest(e, context), 0).1.Accepted? <==> Startable(s, e, context)
    ensures Step(s.rows, StartRequest(e, context), 0).1.Accepted? ==>
              Step(s.rows, StartRequest(e, context), 0).0 != s.rows
    ensures Step(s.rows, StartRequest(e, context), 0).1 != Missing
  {
    assert forall t | t in s.rows && s.rows[t].status == Running :: t == e.task;
    assert !RunningElsewhere(s.rows, e.task);
  }

  method AssignConversation(hands: Hands, e: Entry) returns (o: Outcome<Row>)
    requires hands.Wired() && Inv(hands.S()) && hands.S().journal == Some(e)
    requires e.phase == ConversationKnown && IsRunning(hands.S(), e)
    modifies hands.plant.Frame()
    ensures Inv(hands.S()) && Keeps(old(hands.S()), hands.S())
    ensures Others(old(hands.S()).rows, hands.S().rows, e.task)
    ensures IsRunning(hands.S(), e)
    ensures hands.S() == old(hands.S()) || OnlyRow(old(hands.S()), hands.S(), e.task)
    ensures o.Done? ==> hands.S().rows[e.task].conversation == e.conversation
    ensures hands.calm ==> o.Done?
  {
    hide Inv, Keeps, Step;
    ghost var s := hands.S();
    KnownIsFree(s, e);
    ConversationVerdict(s, e);
    o := hands.Request(SetConversation(e.task, e.conversation.value, e.attempt, e.runner));
  }

  lemma ConversationVerdict(s: State, e: Entry)
    requires Inv(s) && s.journal == Some(e) && e.phase == ConversationKnown && IsRunning(s, e)
    ensures var r := SetConversation(e.task, e.conversation.value, e.attempt, e.runner);
            && (Step(s.rows, r, 0).1.Accepted? <==> !ConversationTaken(s.rows, e.task, e.conversation.value))
            && (Step(s.rows, r, 0).1.Accepted? && Step(s.rows, r, 0).0 == s.rows ==>
                  s.rows[e.task].conversation == e.conversation)
  {
    var r := SetConversation(e.task, e.conversation.value, e.attempt, e.runner);
    if !ConversationTaken(s.rows, e.task, e.conversation.value) {
      assert Step(s.rows, r, 0).0[e.task].conversation == e.conversation;
    }
  }

  function CompleteRequest(e: Entry, captured: Captured, evaluation: Option<Evaluation>): Request {
    Complete(e.task, captured.conversation, captured.messages, captured.metadata, evaluation, e.attempt, e.runner)
  }

  // The entry e may be older than the journal, as long as it is of the same attempt.
  method CompleteRow(hands: Hands, e: Entry, captured: Captured, evaluation: Option<Evaluation>)
    returns (o: Outcome<Row>)
    requires hands.Wired() && Inv(hands.S()) && hands.S().journal.Some? && SameAttempt(hands.S().journal.value, e)
    requires Deliverable(hands.S(), hands.S().journal.value, captured) && EvaluationValid(evaluation)
    requires IsVerdict(hands.S().verdicts, KeyOf(e), captured, evaluation)
    modifies hands.plant.Frame()
    ensures Inv(hands.S()) && Keeps(old(hands.S()), hands.S())
    ensures NotFailed(hands.S().rows, KeyOf(e))
    ensures Others(old(hands.S()).rows, hands.S().rows, e.task)
    ensures hands.S() == old(hands.S()) || OnlyRow(old(hands.S()), hands.S(), e.task)
    ensures o.Done? ==> OwnRow(hands.S(), e) && hands.S().rows[e.task].status == Completed
                        && RowHolds(hands.S().rows[e.task], captured)
                        && hands.S().rows[e.task].evaluation == evaluation
    ensures hands.calm ==> o.Done?
  {
    hide Inv, Keeps, Step;
    ghost var s := hands.S();
    CompleteVerdict(s, s.journal.value, captured, evaluation);
    o := hands.Request(CompleteRequest(e, captured, evaluation));
  }

  // The attempt is ready to complete with this capture.
  ghost predicate Deliverable(s: State, e: Entry, captured: Captured) {
    && IsRunning(s, e)
    && (e.phase == ConversationKnown || e.phase == CandidateCheckpointed)
    && e.conversation == Some(captured.conversation) && s.rows[e.task].conversation == e.conversation
    && (KeyOf(e) in s.transcripts ==> s.transcripts[KeyOf(e)] == captured)
    && (Hooked(s, e) ==> WasGraded(KeyOf(e), s.transcripts, s.sealed, s.graded))
  }

  lemma CompleteVerdict(s: State, e: Entry, captured: Captured, evaluation: Option<Evaluation>)
    requires Inv(s) && s.journal == Some(e) && Deliverable(s, e, captured) && EvaluationValid(evaluation)
    ensures Step(s.rows, CompleteRequest(e, captured, evaluation), 0).1.Accepted?
    ensures Step(s.rows, CompleteRequest(e, captured, evaluation), 0).0 != s.rows
  {
    hide Accounted, Traced, AtMostOnce, WriteAhead;
    assert Step(s.rows, CompleteRequest(e, captured, evaluation), 0).0[e.task].status == Completed;
  }

  method FailRow(hands: Hands, e: Entry, errorType: string, errorMessage: string) returns (o: Outcome<Row>)
    requires hands.Wired() && Inv(hands.S()) && hands.S().journal.Some? && SameAttempt(hands.S().journal.value, e)
    requires IsRunning(hands.S(), e)
    modifies hands.plant.Frame()
    ensures Inv(hands.S()) && Keeps(old(hands.S()), hands.S())
    ensures Others(old(hands.S()).rows, hands.S().rows, e.task)
    ensures hands.S() == old(hands.S()) || OnlyRow(old(hands.S()), hands.S(), e.task)
    ensures o.Done? ==> OwnRow(hands.S(), e) && hands.S().rows[e.task].status == Failed
                        && hands.S().rows[e.task].error == Some((errorType, errorMessage))
    ensures hands.calm ==> o.Done?
  {
    hide Inv, Keeps, Step;
    ghost var s := hands.S();
    var r := Fail(e.task, errorType, errorMessage, e.attempt, e.runner);
    FailVerdict(s, s.journal.value, r);
    o := hands.Request(r);
  }

  lemma FailVerdict(s: State, e: Entry, r: Request)
    requires Inv(s) && s.journal == Some(e) && IsRunning(s, e)
    requires r.Fail? && r.task == e.task && r.attempt == e.attempt && r.runner == e.runner
    ensures Step(s.rows, r, 0).1.Accepted? && Step(s.rows, r, 0).0 != s.rows
  {
    hide Accounted, Traced, AtMostOnce, Faithful, Judged, Examined;
    assert Step(s.rows, r, 0).0[e.task].status == Failed;
  }
}
