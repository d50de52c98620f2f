// The crash-recovery protocol as a state and its invariant.
//
// A state is everything that survives the death of the runner process, plus a ledger of
// what has happened to the outside world: the prompts sent, the conversations they opened,
// the transcripts and candidates that were checkpointed, the candidates that were graded, and
// the verdicts the evaluators returned.
module Protocol {
  import opened Basics
  import opened Benchmark
  import opened Conversation
  import opened Storage
  import opened StorageHistory
  import opened Journal

  datatype Key = Key(task: string, attempt: nat)

  datatype Vm = Vm(task: string, attempt: nat, fingerprint: Contract)

  datatype Grade = Grade(key: Key, candidate: Candidate, captured: Captured)

  // What an evaluator returned for a transcript; None when nothing is to be evaluated.
  datatype Verdict = Verdict(captured: Captured, result: Option<Evaluation>)

  // What an attempt has gone through: the journal phases that were written for it, and the
  // preparation of its benchmark by runtime hooks.
  datatype Deed = Wrote(phase: Phase) | Prepared

  datatype State = State(
    journal: Option<Entry>,
    capture: Option<CaptureFile>,
    rows: Db,
    live: set<Vm>,
    sends: multiset<Key>,
    posted: map<Key, string>,      // the id of the user message each prompt became
    threads: map<string, string>,  // the one user message a conversation holds
    transcripts: map<Key, Captured>,
    sealed: map<Key, Candidate>,
    graded: set<Grade>,
    verdicts: map<Key, Verdict>,   // the last verdict of each attempt
    deeds: set<(Key, Deed)>,
    hooked: set<string>)      // the tasks whose adapter uses runtime hooks

  function KeyOf(e: Entry): Key {
    Key(e.task, e.attempt)
  }

  function VmOf(e: Entry): Vm {
    Vm(e.task, e.attempt, e.fingerprint)
  }

  // ---------------------------------------------------------------- the invariant

  type Transcripts = map<Key, Captured>
  type Candidates = map<Key, Candidate>

  ghost predicate Inv(s: State) {
    && Sound(s.rows)
    && WriteAhead(s.journal, s.rows, s.live)
    && AtMostOnce(s.sends)
    && Traced(s.rows, s.sends, s.posted, s.threads)
    && Accounted(s.journal, s.rows, s.sends, s.transcripts, s.sealed)
    && Faithful(s.rows, s.transcripts, s.sealed, s.graded)
    && Judged(s.rows, s.verdicts)
    && Examined(s.rows, s.hooked, s.transcripts, s.sealed, s.graded)
    && InOrder(s.journal, s.rows, s.sends, s.hooked, s.deeds)
    && (s.journal.Some? ==> EntryOk(s, s.journal.value))
  }

  predicate SameRun(row: Row, e: Entry) {
    && row.attempt == e.attempt
    && row.runner == Some(e.runner)
    && row.fingerprint == Some(e.fingerprint)
  }

  // A running row or a live VM is named by the journal.
  ghost predicate WriteAhead(journal: Option<Entry>, rows: Db, live: set<Vm>) {
    && (forall t | t in rows && rows[t].status == Running ::
          journal.Some? && journal.value.task == t && SameRun(rows[t], journal.value))
    && (forall v | v in live :: v.fingerprint.workstation && journal.Some? && v == VmOf(journal.value))
  }

  ghost predicate AtMostOnce(sends: multiset<Key>) {
    forall k | k in sends :: sends[k] == 1
  }

  // The conversation holds the prompt of the attempt.
  predicate Holds(posted: map<Key, string>, threads: map<string, string>, conversation: string, k: Key) {
    k in posted && conversation in threads && threads[conversation] == posted[k]
  }

  // Every prompt became a message with an id of its own, and the conversation of a row is one
  // that holds the prompt of its attempt.
  ghost predicate Traced(rows: Db, sends: multiset<Key>, posted: map<Key, string>, threads: map<string, string>) {
    && (forall k :: k in posted <==> k in sends)
    && (forall k | k in posted :: posted[k] != "")
    && (forall k, l | k in posted && l in posted && posted[k] == posted[l] :: k == l)
    && (forall t | t in rows && rows[t].conversation.Some? ::
          Holds(posted, threads, rows[t].conversation.value, Key(t, rows[t].attempt)))
  }

  // The attempt is over: its row failed, completed, or moved on to a later attempt.
  predicate Over(rows: Db, k: Key) {
    && k.task in rows
    && var row := rows[k.task];
       row.attempt > k.attempt ||
       (row.attempt == k.attempt && (row.status == Failed || row.status == Completed))
  }

  predicate Reached(journal: Option<Entry>, k: Key, rank: nat) {
    journal.Some? && KeyOf(journal.value) == k && Rank(journal.value.phase) >= rank
  }

  // Nothing the outside world has seen is forgotten while its attempt is open.
  ghost predicate Accounted(journal: Option<Entry>, rows: Db, sends: multiset<Key>,
                            transcripts: Transcripts, sealed: Candidates) {
    && (forall k | k in sends :: Over(rows, k) || Reached(journal, k, Rank(SubmissionStarted)))
    && (forall k | k in transcripts :: Over(rows, k) || Reached(journal, k, Rank(ConversationCheckpointed)))
    && (forall k | k in sealed :: Over(rows, k) || Reached(journal, k, Rank(CandidateCheckpointed)))
  }

  // Grades are of the sealed candidate; a completed row holds the checkpointed transcript.
  ghost predicate Faithful(rows: Db, transcripts: Transcripts, sealed: Candidates, graded: set<Grade>) {
    && (forall g | g in graded ::
          && g.key in sealed && g.candidate == sealed[g.key]
          && g.key in transcripts && g.captured == transcripts[g.key])
    && (forall k | k in transcripts && k.task in rows ::
          rows[k.task].attempt == k.attempt && rows[k.task].status == Completed ==>
            RowHolds(rows[k.task], transcripts[k]))
  }

  predicate RowHolds(row: Row, captured: Captured) {
    && row.conversation == Some(captured.conversation)
    && row.messages == Some(captured.messages)
    && row.metadata == Some(captured.metadata)
  }

  // The last verdict of the attempt, with the transcript it was given for.
  predicate IsVerdict(verdicts: map<Key, Verdict>, k: Key, captured: Captured, result: Option<Evaluation>) {
    k in verdicts && verdicts[k] == Verdict(captured, result)
  }

  // The row holds the last verdict of its attempt, and the transcript that was judged.
  predicate HoldsVerdict(row: Row, k: Key, verdicts: map<Key, Verdict>) {
    && k in verdicts
    && RowHolds(row, verdicts[k].captured)
    && row.evaluation == verdicts[k].result
  }

  ghost predicate Judged(rows: Db, verdicts: map<Key, Verdict>) {
    forall t | t in rows && rows[t].status == Completed ::
      HoldsVerdict(rows[t], Key(t, rows[t].attempt), verdicts)
  }

  // The sealed candidate was graded on the checkpointed transcript.
  predicate WasGraded(k: Key, transcripts: Transcripts, sealed: Candidates, graded: set<Grade>) {
    k in transcripts && k in sealed && Grade(k, sealed[k], transcripts[k]) in graded
  }

  // Under hooks no attempt completes without a grade.
  ghost predicate Examined(rows: Db, hooked: set<string>, transcripts: Transcripts, sealed: Candidates,
                           graded: set<Grade>) {
    forall t | t in rows && t in hooked && rows[t].status == Completed ::
      WasGraded(Key(t, rows[t].attempt), transcripts, sealed, graded)
  }

  // What comes before a phase of an attempt.
  predicate Prior(k: Key, phase: Phase, hooked: set<string>, deeds: set<(Key, Deed)>) {
    match phase
    case Starting => true
    case AppsPrepared => (k, Wrote(Starting)) in deeds
    case BenchmarkPreparing => (k, Wrote(AppsPrepared)) in deeds
    case BenchmarkReady => (k, Wrote(BenchmarkPreparing)) in deeds && (k, Prepared) in deeds
    case ComposerDirty => (k, Wrote(if k.task in hooked then BenchmarkReady else AppsPrepared)) in deeds
    case SubmissionStarted => (k, Wrote(ComposerDirty)) in deeds
    case ConversationKnown => (k, Wrote(SubmissionStarted)) in deeds
    case ConversationCheckpointed => (k, Wrote(ConversationKnown)) in deeds
    case CandidateCheckpointed => (k, Wrote(ConversationCheckpointed)) in deeds
    case CleanupPending => (k, Wrote(if k.task in hooked then CandidateCheckpointed else ConversationKnown)) in deeds
  }

  // No attempt skips a phase.  A prompt goes out after submission_started, and a row completes
  // after the last phase before the cleanup.
  ghost predicate InOrder(journal: Option<Entry>, rows: Db, sends: multiset<Key>, hooked: set<string>,
                          deeds: set<(Key, Deed)>) {
    && (forall k, p | (k, Wrote(p)) in deeds :: Prior(k, p, hooked, deeds))
    && (journal.Some? ==> (KeyOf(journal.value), Wrote(journal.value.phase)) in deeds)
    && (forall k | k in sends :: (k, Wrote(SubmissionStarted)) in deeds)
    && (forall t | t in rows && rows[t].status == Completed ::
          Prior(Key(t, rows[t].attempt), CleanupPending, hooked, deeds))
  }

  predicate Untouched(s: State, k: Key) {
    k !in s.sends && k !in s.transcripts && k !in s.sealed
  }

  // The row of the journal's attempt.
  predicate OwnRow(s: State, e: Entry) {
    && e.task in s.rows
    && SameRun(s.rows[e.task], e)
    && s.rows[e.task].provenance == Some(e.names)
    && s.rows[e.task].status != Pending
  }

  predicate IsRunning(s: State, e: Entry) {
    OwnRow(s, e) && s.rows[e.task].status == Running
  }

  // The attempt has not failed.
  predicate NotFailed(rows: Db, k: Key) {
    k.task in rows && rows[k.task].attempt == k.attempt ==> rows[k.task].status != Failed
  }

  lemma OpenHasNotFailed(s: State, e: Entry)
    requires NoRow(s, e) || PreviousFailed(s, e) || IsRunning(s, e)
    ensures NotFailed(s.rows, KeyOf(e))
  {
  }

  predicate NoRow(s: State, e: Entry) {
    e.task !in s.rows && e.attempt == 1
  }

  predicate PreviousFailed(s: State, e: Entry) {
    e.task in s.rows && s.rows[e.task].status == Failed && s.rows[e.task].attempt + 1 == e.attempt
    && s.rows[e.task].fingerprint == Some(e.fingerprint)
  }

  predicate VmReady(s: State, e: Entry) {
    e.fingerprint.workstation ==> VmOf(e) in s.live
  }

  predicate Hooked(s: State, e: Entry) {
    e.task in s.hooked
  }

  predicate WellFormed(e: Entry) {
    e.runner != "" && e.fingerprint.taskId == e.task && e.names.Keys == e.fingerprint.apps
  }

  // The attempt has not been submitted: a row that is open has no conversation yet.
  predicate Unsubmitted(s: State, e: Entry) {
    && OwnRow(s, e)
    && Untouched(s, KeyOf(e))
    && var row := s.rows[e.task];
       row.status == Failed || (row.status == Running && row.conversation == None)
  }

  predicate Durable(conversation: Option<string>) {
    conversation.Some? && !IsTransient(conversation.value)
  }

  predicate StartingOk(s: State, e: Entry) {
    (NoRow(s, e) || PreviousFailed(s, e) || Unsubmitted(s, e)) && Untouched(s, KeyOf(e))
  }

  predicate Preparing(p: Phase) {
    Rank(AppsPrepared) <= Rank(p) <= Rank(ComposerDirty)
  }

  predicate PreparingOk(s: State, e: Entry) {
    && Unsubmitted(s, e)
    && (e.phase == BenchmarkPreparing || e.phase == BenchmarkReady ==> Hooked(s, e))
    && (Hooked(s, e) && IsRunning(s, e) ==> VmReady(s, e))
  }

  predicate SubmittedOk(s: State, e: Entry) {
    && OwnRow(s, e) && s.rows[e.task].status != Completed
    && KeyOf(e) !in s.transcripts && KeyOf(e) !in s.sealed
    && e.conversation == None
    && (Truthy(e.userMessage) ==> KeyOf(e) in s.posted && s.posted[KeyOf(e)] == e.userMessage.value)
    && (IsRunning(s, e) ==> s.rows[e.task].conversation == None && VmReady(s, e))
  }

  predicate KnownOk(s: State, e: Entry) {
    && OwnRow(s, e) && Durable(e.conversation)
    && Holds(s.posted, s.threads, e.conversation.value, KeyOf(e)) && e.userMessage == Some(s.posted[KeyOf(e)])
    && KeyOf(e) !in s.transcripts && KeyOf(e) !in s.sealed
    && (IsRunning(s, e) ==>
          (s.rows[e.task].conversation == None || s.rows[e.task].conversation == e.conversation) && VmReady(s, e))
  }

  predicate CheckpointOk(s: State, e: Entry) {
    && Hooked(s, e) && OwnRow(s, e) && Durable(e.conversation)
    && s.capture.Some? && CaptureIs(s.capture.value, e)
    && KeyOf(e) in s.transcripts && s.transcripts[KeyOf(e)] == s.capture.value.captured
    && (IsRunning(s, e) ==> s.rows[e.task].conversation == e.conversation && VmReady(s, e))
    && (if e.phase == CandidateCheckpointed
        then e.candidate.Some? && KeyOf(e) in s.sealed && s.sealed[KeyOf(e)] == e.candidate.value
        else s.rows[e.task].status != Completed && KeyOf(e) !in s.sealed)
  }

  ghost predicate EntryOk(s: State, e: Entry) {
    && WellFormed(e)
    && (e.phase == Starting ==> StartingOk(s, e))
    && (Preparing(e.phase) ==> PreparingOk(s, e))
    && (e.phase == SubmissionStarted ==> SubmittedOk(s, e))
    && (e.phase == ConversationKnown ==> KnownOk(s, e))
    && (Checkpoint(e.phase) ==> CheckpointOk(s, e))
    && (e.phase == CleanupPending ==> OwnRow(s, e) && s.rows[e.task].status == Completed)
  }

  // What no step takes back: anything in the ledger, which adapters use hooks, and what
  // RowLater says of a row: its identity, its attempts, what it is within one attempt, and its
  // completion.
  ghost predicate Keeps(s: State, s': State) {
    && s'.hooked == s.hooked
    && s.sends <= s'.sends && s.graded <= s'.graded && s.deeds <= s'.deeds
    && (forall k | k in s.posted :: k in s'.posted && s'.posted[k] == s.posted[k])
    && (forall c | c in s.threads :: c in s'.threads && s'.threads[c] == s.threads[c])
    && (forall k | k in s.transcripts :: k in s'.transcripts && s'.transcripts[k] == s.transcripts[k])
    && (forall k | k in s.sealed :: k in s'.sealed && s'.sealed[k] == s.sealed[k])
    && (forall t | t in s.rows :: t in s'.rows && RowLater(s.rows[t], s'.rows[t]))
  }

  function RowAt(rows: Db, t: string): Option<Row> {
    if t in rows then Some(rows[t]) else None
  }

  // The rows of all other tasks are as they were.
  ghost predicate Others(rows: Db, rows': Db, task: string) {
    forall t | t != task :: RowAt(rows', t) == RowAt(rows, t)
  }

  // Keeps is a preorder; for methods that hide its definition.
  lemma KeepsChains()
    ensures forall s: State :: Keeps(s, s)
    ensures forall s: State, s': State :: Keeps(s, s') ==> s'.hooked == s.hooked && s.deeds <= s'.deeds
    ensures forall s: State, s': State, s'': State :: Keeps(s, s') && Keeps(s', s'') ==> Keeps(s, s'')
  {
  }

  // Nothing has happened yet.
  function Blank(hooked: set<string>): State {
    State(None, None, map[], {}, multiset{}, map[], map[], map[], map[], {}, map[], {}, hooked)
  }

  lemma BlankIsSound(hooked: set<string>)
    ensures Inv(Blank(hooked))
  {
  }

  // ---------------------------------------------------------------- journal writes

  // The ledger records a transcript and a candidate when the journal commits to them.
  function AfterWrite(s: State, e: Entry): State {
    s.(journal := Some(e),
       transcripts :=
         if e.phase == ConversationCheckpointed && s.capture.Some? && KeyOf(e) !in s.transcripts
         then s.transcripts[KeyOf(e) := s.capture.value.captured] else s.transcripts,
       sealed :=
         if e.phase == CandidateCheckpointed && e.candidate.Some? && KeyOf(e) !in s.sealed
         then s.sealed[KeyOf(e) := e.candidate.value] else s.sealed,
       deeds := s.deeds + {(KeyOf(e), Wrote(e.phase))})
  }

  predicate SameAttempt(p: Entry, e: Entry) {
    && p.task == e.task && p.attempt == e.attempt && p.runner == e.runner
    && p.fingerprint == e.fingerprint && p.names == e.names
  }

  ghost predicate CanWrite(s: State, e: Entry) {
    && EntryOk(AfterWrite(s, e), e)
    && Prior(KeyOf(e), e.phase, s.hooked, s.deeds)
    && (if s.journal.Some? && SameAttempt(s.journal.value, e)
        then Rank(s.journal.value.phase) <= Rank(e.phase) || Rank(s.journal.value.phase) < Rank(SubmissionStarted)
        else e.phase == Starting && (s.journal.Some? ==> CanClear(s)))
  }

  lemma WriteKeepsAccounts(s: State, e: Entry)
    requires Accounted(s.journal, s.rows, s.sends, s.transcripts, s.sealed)
    requires s.journal.Some? ==>
               && KeyOf(s.journal.value) == KeyOf(e)
               && (Rank(s.journal.value.phase) <= Rank(e.phase)
                   || Rank(s.journal.value.phase) < Rank(SubmissionStarted))
    ensures var s' := AfterWrite(s, e); Accounted(s'.journal, s'.rows, s'.sends, s'.transcripts, s'.sealed)
  {
    hide Over;
    var s' := AfterWrite(s, e);
    forall k, n: nat | Reached(s.journal, k, n) && n >= Rank(SubmissionStarted)
      ensures Reached(s'.journal, k, n)
    {
    }
  }

  lemma WriteKeepsInv(s: State, e: Entry)
    requires Inv(s) && CanWrite(s, e)
    ensures Inv(AfterWrite(s, e))
  {
    hide Sound, Accounted, WriteAhead, AtMostOnce, Traced, Faithful, Judged, Examined, InOrder, EntryOk, CanClear;
    if s.journal.Some? && !SameAttempt(s.journal.value, e) {
      ClearKeepsInv(s);
      WriteKeepsParts(s.(journal := None), e);
    } else {
      WriteKeepsParts(s, e);
    }
  }

  lemma WriteKeepsParts(s: State, e: Entry)
    requires Inv(s) && EntryOk(AfterWrite(s, e), e) && Prior(KeyOf(e), e.phase, s.hooked, s.deeds)
    requires s.journal.Some? ==>
               && SameAttempt(s.journal.value, e)
               && (Rank(s.journal.value.phase) <= Rank(e.phase)
                   || Rank(s.journal.value.phase) < Rank(SubmissionStarted))
    ensures Inv(AfterWrite(s, e))
  {
    hide Sound, Accounted, WriteAhead, AtMostOnce, Traced, Faithful, Judged, Examined, InOrder, EntryOk;
    WriteKeepsAccounts(s, e);
    WriteKeepsOrder(s, e);
    WriteKeepsFaith(s, e);
    WriteKeepsWriteAhead(s, e);
  }

  lemma WriteKeepsOrder(s: State, e: Entry)
    requires InOrder(s.journal, s.rows, s.sends, s.hooked, s.deeds) && Prior(KeyOf(e), e.phase, s.hooked, s.deeds)
    ensures var s' := AfterWrite(s, e); InOrder(s'.journal, s'.rows, s'.sends, s'.hooked, s'.deeds)
  {
    var deeds := AfterWrite(s, e).deeds;
    forall k, p | Prior(k, p, s.hooked, s.deeds)
      ensures Prior(k, p, s.hooked, deeds)
    {
    }
    hide Prior;
  }

  lemma StartWritable(s: State, e: Entry)
    requires Inv(s) && (s.journal.Some? ==> CanClear(s))
    requires e.phase == Starting && WellFormed(e) && (NoRow(s, e) || PreviousFailed(s, e))
    ensures CanWrite(s, e)
  {
    hide Inv, EntryOk, CanClear;
    if s.journal.None? {
      FirstWritable(s, e);
    } else {
      ClearKeepsInv(s);
      FirstWritable(s.(journal := None), e);
      if SameAttempt(s.journal.value, e) {
        NotYetSubmitted(s, e);
      }
    }
  }

  lemma FirstWritable(s: State, e: Entry)
    requires Inv(s) && s.journal == None
    requires e.phase == Starting && WellFormed(e) && (NoRow(s, e) || PreviousFailed(s, e))
    ensures EntryOk(AfterWrite(s, e), e)
  {
    hide Sound, Faithful, Judged, Examined, InOrder;
    assert !Over(s.rows, KeyOf(e));
  }

  lemma NotYetSubmitted(s: State, e: Entry)
    requires Inv(s) && s.journal.Some? && SameAttempt(s.journal.value, e)
    requires NoRow(s, e) || PreviousFailed(s, e)
    ensures Rank(s.journal.value.phase) < Rank(SubmissionStarted)
  {
    hide Sound, Faithful, Judged, Examined, InOrder, Accounted, WriteAhead, AtMostOnce;
  }

  lemma WriteKeeps(s: State, e: Entry)
    ensures Keeps(s, AfterWrite(s, e)) && Keeps(s, s)
  {
  }

  // A new attempt may be written over the entry of another one exactly when that entry could
  // be cleared: its row has left running and its VM is gone.
  lemma OverwriteKeepsInv(s: State, e: Entry)
    requires Inv(s) && s.journal.Some? && KeyOf(s.journal.value) != KeyOf(e)
    requires e.phase == Starting && WellFormed(e) && (NoRow(s, e) || PreviousFailed(s, e))
    ensures Inv(AfterWrite(s, e)) <==> CanClear(s)
  {
    hide Sound, Faithful, Judged, Examined, InOrder, AtMostOnce;
    if CanClear(s) {
      ClearKeepsInv(s);
      StartWritable(s.(journal := None), e);
      WriteKeepsInv(s.(journal := None), e);
    } else {
      hide Accounted;
    }
  }

  lemma WriteKeepsFaith(s: State, e: Entry)
    requires Faithful(s.rows, s.transcripts, s.sealed, s.graded) && EntryOk(AfterWrite(s, e), e)
    requires Examined(s.rows, s.hooked, s.transcripts, s.sealed, s.graded)
    ensures var s' := AfterWrite(s, e);
            && Faithful(s'.rows, s'.transcripts, s'.sealed, s'.graded)
            && Examined(s'.rows, s'.hooked, s'.transcripts, s'.sealed, s'.graded)
  {
  }

  lemma WriteKeepsWriteAhead(s: State, e: Entry)
    requires WriteAhead(s.journal, s.rows, s.live)
    requires s.journal.Some? ==> SameAttempt(s.journal.value, e)
    ensures WriteAhead(Some(e), s.rows, s.live)
  {
  }

  // ---------------------------------------------------------------- clearing the journal

  predicate CanClear(s: State) {
    s.journal.Some? &&
    var e := s.journal.value;
    (e.task in s.rows ==> s.rows[e.task].status != Running) && VmOf(e) !in s.live
  }

  lemma ClearKeepsInv(s: State)
    requires Inv(s) && CanClear(s)
    ensures Inv(s.(journal := None))
  {
    hide Sound, Faithful, Judged, Examined, InOrder, Traced, AtMostOnce, Accounted, EntryOk;
    OrderStays(s, None, s.sends);
    ClearKeepsAccounts(s);
  }

  lemma ClearKeepsAccounts(s: State)
    requires Inv(s) && CanClear(s)
    ensures Accounted(None, s.rows, s.sends, s.transcripts, s.sealed)
  {
    hide Sound, Faithful, Judged, Examined, InOrder, Traced, AtMostOnce, WriteAhead;
    var e := s.journal.value;
    assert Rank(e.phase) >= Rank(SubmissionStarted) ==> OwnRow(s, e) && Over(s.rows, KeyOf(e));
    assert Rank(e.phase) < Rank(SubmissionStarted) ==> Untouched(s, KeyOf(e));
  }

  // ---------------------------------------------------------------- requests to storage

  // The requests the runner sends while its journal stands at the entry.
  ghost predicate CanRequest(s: State, r: Request) {
    s.journal.Some? &&
    var e := s.journal.value;
    && r.task == e.task && r.attempt == e.attempt && r.runner == e.runner
    && match r
       case Start(_, _, _, _, fingerprint, provenance, _) =>
         e.phase == Starting && fingerprint == e.fingerprint && provenance == e.names
       case SetConversation(_, c, _, _) =>
         e.phase == ConversationKnown && e.conversation == Some(c)
       case Complete(_, c, messages, metadata, evaluation, _, _) =>
         && (e.phase == ConversationKnown || e.phase == CandidateCheckpointed)
         && e.conversation == Some(c)
         && (KeyOf(e) in s.transcripts ==> s.transcripts[KeyOf(e)] == Captured(c, messages, metadata))
         && (Hooked(s, e) ==> WasGraded(KeyOf(e), s.transcripts, s.sealed, s.graded))
         && IsVerdict(s.verdicts, KeyOf(e), Captured(c, messages, metadata), evaluation)
       case Fail(_, _, _, _, _) => true
  }

  lemma RequestKeepsRows(s: State, r: Request, now: int)
    requires Inv(s) && CanRequest(s, r)
    ensures Sound(Step(s.rows, r, now).0) && Advanced(s.rows, r.task, Step(s.rows, r, now).0)
  {
    StepAdvances(s.rows, r, now);
  }

  // What the entry's row becomes.
  ghost predicate RowEffect(s: State, r: Request, row: Row) {
    s.journal.Some? &&
    var e := s.journal.value;
    match r
    case Start(_, _, _, _, _, _, dataset) =>
      && row.status == Running && SameRun(row, e) && row.provenance == Some(e.names) && row.conversation == None
      && row.dataset == dataset && row.logicalId == LogicalId(r)
    case _ =>
      && e.task in s.rows && s.rows[e.task].status == Running && SameRun(s.rows[e.task], e)
      && SameRun(row, e) && row.provenance == s.rows[e.task].provenance
      && match r
         case SetConversation(_, c, _, _) => row.status == Running && row.conversation == Some(c)
         case Complete(_, c, messages, metadata, evaluation, _, _) =>
           row.status == Completed && RowHolds(row, Captured(c, messages, metadata)) && row.evaluation == evaluation
         case Fail(_, errorType, errorMessage, _, _) =>
           && row.status == Failed && row.conversation == s.rows[e.task].conversation
           && row.error == Some((errorType, errorMessage))
  }

  lemma RequestEffect(s: State, r: Request, now: int)
    requires Inv(s) && CanRequest(s, r)
    ensures var db := Step(s.rows, r, now).0;
            db == s.rows || (r.task in db && db == s.rows[r.task := db[r.task]] && RowEffect(s, r, db[r.task]))
  {
    hide Sound, Accounted, Faithful, Judged, Examined, InOrder, AtMostOnce, EntryOk;
    RequestKeepsRows(s, r, now);
  }

  lemma RequestKeepsInv(s: State, r: Request, now: int)
    requires Inv(s) && CanRequest(s, r)
    ensures Inv(s.(rows := Step(s.rows, r, now).0))
    ensures Keeps(s, s.(rows := Step(s.rows, r, now).0))
  {
    hide Step, Inv, Keeps, CanRequest, RowEffect, Sound, RowAdvances;
    KeepsChains();
    RequestKeepsRows(s, r, now);
    RequestEffect(s, r, now);
    var db := Step(s.rows, r, now).0;
    if db != s.rows {
      RowEffectKeepsInv(s, r, db[r.task]);
    }
  }

  lemma RowKeepsAccounts(s: State, task: string, row: Row)
    requires Accounted(s.journal, s.rows, s.sends, s.transcripts, s.sealed)
    requires task in s.rows ==> RowAdvances(s.rows[task], row) && row.status != Pending
    ensures Accounted(s.journal, s.rows[task := row], s.sends, s.transcripts, s.sealed)
  {
    var rows' := s.rows[task := row];
    forall k | Over(s.rows, k)
      ensures Over(rows', k)
    {
    }
    hide Over;
  }

  lemma RowKeepsFaith(s: State, task: string, row: Row)
    requires Faithful(s.rows, s.transcripts, s.sealed, s.graded)
    requires row.status == Completed ==>
               Key(task, row.attempt) in s.transcripts ==>
                 RowHolds(row, s.transcripts[Key(task, row.attempt)])
    ensures Faithful(s.rows[task := row], s.transcripts, s.sealed, s.graded)
  {
  }

  lemma RowKeepsJudged(s: State, task: string, row: Row)
    requires Judged(s.rows, s.verdicts)
    requires row.status == Completed ==> HoldsVerdict(row, Key(task, row.attempt), s.verdicts)
    ensures Judged(s.rows[task := row], s.verdicts)
  {
  }

  lemma RowKeepsExamined(s: State, task: string, row: Row)
    requires Examined(s.rows, s.hooked, s.transcripts, s.sealed, s.graded)
    requires row.status == Completed && task in s.hooked ==>
               WasGraded(Key(task, row.attempt), s.transcripts, s.sealed, s.graded)
    ensures Examined(s.rows[task := row], s.hooked, s.transcripts, s.sealed, s.graded)
  {
  }

  lemma RowKeepsOrder(s: State, task: string, row: Row)
    requires InOrder(s.journal, s.rows, s.sends, s.hooked, s.deeds)
    requires row.status == Completed ==> Prior(Key(task, row.attempt), CleanupPending, s.hooked, s.deeds)
    ensures InOrder(s.journal, s.rows[task := row], s.sends, s.hooked, s.deeds)
  {
    hide Prior;
  }

  // Under hooks a graded attempt stands at its candidate, otherwise at its conversation.
  lemma CompletionIsPrior(s: State, r: Request)
    requires Inv(s) && CanRequest(s, r) && r.Complete?
    ensures Prior(KeyOf(s.journal.value), CleanupPending, s.hooked, s.deeds)
  {
    hide Sound, Accounted, WriteAhead, Faithful, Judged, Examined, AtMostOnce, Traced;
  }

  lemma RowKeepsEntry(s: State, r: Request, row: Row)
    requires s.journal.Some? && EntryOk(s, s.journal.value) && CanRequest(s, r) && RowEffect(s, r, row)
    ensures EntryOk(s.(rows := s.rows[r.task := row]), s.journal.value)
  {
  }

  lemma RowKeepsTrace(s: State, r: Request, row: Row)
    requires s.journal.Some? && EntryOk(s, s.journal.value) && CanRequest(s, r) && RowEffect(s, r, row)
    requires Traced(s.rows, s.sends, s.posted, s.threads)
    ensures Traced(s.rows[r.task := row], s.sends, s.posted, s.threads)
  {
  }

  lemma RowKeepsWriteAhead(s: State, task: string, row: Row)
    requires WriteAhead(s.journal, s.rows, s.live)
    requires s.journal.Some? && s.journal.value.task == task
    requires row.status == Running ==> SameRun(row, s.journal.value)
    ensures WriteAhead(s.journal, s.rows[task := row], s.live)
  {
  }

  lemma RowEffectKeepsInv(s: State, r: Request, row: Row)
    requires Inv(s) && CanRequest(s, r) && RowEffect(s, r, row)
    requires Sound(s.rows[r.task := row])
    requires r.task in s.rows ==> RowAdvances(s.rows[r.task], row)
    ensures Inv(s.(rows := s.rows[r.task := row]))
    ensures Keeps(s, s.(rows := s.rows[r.task := row]))
  {
    hide Sound, Accounted, Faithful, EntryOk, WriteAhead, AtMostOnce, Traced, Judged, Examined, InOrder;
    RowKeepsJudged(s, r.task, row);
    RowKeepsExamined(s, r.task, row);
    if row.status == Completed {
      CompletionIsPrior(s, r);
    }
    RowKeepsOrder(s, r.task, row);
    RowKeepsAccounts(s, r.task, row);
    RowKeepsFaith(s, r.task, row);
    RowKeepsTrace(s, r, row);
    RowKeepsEntry(s, r, row);
    RowKeepsWriteAhead(s, r.task, row);
  }

  // ---------------------------------------------------------------- the outside world

  // The VM of the journal's attempt may go once the attempt no longer needs it.
  ghost predicate CanDestroy(s: State) {
    s.journal.Some? &&
    var e := s.journal.value;
    !IsRunning(s, e) || e.phase == Starting ||
    (!Hooked(s, e) && Rank(e.phase) < Rank(SubmissionStarted))
  }

  lemma DestroyKeepsInv(s: State)
    requires Inv(s) && CanDestroy(s)
    ensures Inv(s.(live := s.live - {VmOf(s.journal.value)}))
  {
    hide Sound, Accounted, Faithful, Judged, Examined, InOrder;
  }

  lemma CreateKeepsInv(s: State)
    requires Inv(s) && s.journal.Some? && s.journal.value.fingerprint.workstation
    ensures Inv(s.(live := s.live + {VmOf(s.journal.value)}))
    ensures Keeps(s, s.(live := s.live + {VmOf(s.journal.value)}))
  {
    hide Sound, Accounted, Faithful, Judged, Examined, InOrder;
  }

  ghost predicate CanSend(s: State) {
    s.journal.Some? && s.journal.value.phase == SubmissionStarted && KeyOf(s.journal.value) !in s.sends
  }

  // The prompt becomes a message with an id that no other prompt has.
  lemma SendKeepsInv(s: State, id: string)
    requires Inv(s) && CanSend(s) && id != "" && forall k | k in s.posted :: s.posted[k] != id
    ensures var k := KeyOf(s.journal.value);
            Inv(s.(sends := s.sends + multiset{k}, posted := s.posted[k := id]))
    ensures KeyOf(s.journal.value) !in s.posted
  {
    hide Sound, Faithful, Judged, Examined, InOrder, WriteAhead, Accounted, Traced, AtMostOnce, EntryOk;
    SendKeepsAccounts(s);
    SendKeepsTrace(s, id);
    SendKeepsEntry(s, id);
    OrderStays(s, s.journal, s.sends + multiset{KeyOf(s.journal.value)});
  }

  lemma SendKeepsTrace(s: State, id: string)
    requires Traced(s.rows, s.sends, s.posted, s.threads) && AtMostOnce(s.sends) && CanSend(s)
    requires id != "" && forall k | k in s.posted :: s.posted[k] != id
    ensures var k := KeyOf(s.journal.value);
            && Traced(s.rows, s.sends + multiset{k}, s.posted[k := id], s.threads)
            && AtMostOnce(s.sends + multiset{k}) && k !in s.posted
  {
  }

  lemma SendKeepsEntry(s: State, id: string)
    requires CanSend(s) && EntryOk(s, s.journal.value) && KeyOf(s.journal.value) !in s.posted
    ensures var k := KeyOf(s.journal.value);
            EntryOk(s.(sends := s.sends + multiset{k}, posted := s.posted[k := id]), s.journal.value)
  {
  }

  lemma SendKeeps(s: State, k: Key, id: string)
    requires k !in s.posted
    ensures Keeps(s, s.(sends := s.sends + multiset{k}, posted := s.posted[k := id]))
  {
  }

  lemma OrderStays(s: State, journal: Option<Entry>, sends: multiset<Key>)
    requires InOrder(s.journal, s.rows, s.sends, s.hooked, s.deeds)
    requires journal == s.journal || journal == None
    requires forall k | k in sends ::
               k in s.sends || (journal.Some? && journal.value.phase == SubmissionStarted && k == KeyOf(journal.value))
    ensures InOrder(journal, s.rows, sends, s.hooked, s.deeds)
  {
    hide Prior;
  }

  lemma SendKeepsAccounts(s: State)
    requires Inv(s) && CanSend(s)
    ensures Accounted(s.journal, s.rows, s.sends + multiset{KeyOf(s.journal.value)}, s.transcripts, s.sealed)
  {
    hide Sound, Faithful, Judged, Examined, InOrder, WriteAhead, Traced;
  }

  // Conversations are opened at any time, and what one holds stays.
  lemma ThreadsKeepInv(s: State, threads: map<string, string>)
    requires Inv(s) && forall c | c in s.threads :: c in threads && threads[c] == s.threads[c]
    ensures Inv(s.(threads := threads)) && Keeps(s, s.(threads := threads))
  {
    hide Sound, Faithful, Judged, Examined, InOrder, WriteAhead, Accounted, AtMostOnce, Traced, Keeps;
    ThreadsKeepTrace(s, threads);
    ThreadsKeep(s, threads);
  }

  lemma ThreadsKeep(s: State, threads: map<string, string>)
    requires forall c | c in s.threads :: c in threads && threads[c] == s.threads[c]
    ensures Keeps(s, s.(threads := threads))
  {
  }

  lemma ThreadsKeepTrace(s: State, threads: map<string, string>)
    requires Traced(s.rows, s.sends, s.posted, s.threads)
    requires forall c | c in s.threads :: c in threads && threads[c] == s.threads[c]
    ensures Traced(s.rows, s.sends, s.posted, threads)
  {
  }

  // A known conversation holds the prompt of the attempt, so it is the conversation of no
  // other row.
  lemma KnownIsFree(s: State, e: Entry)
    requires Inv(s) && s.journal == Some(e) && e.phase == ConversationKnown
    ensures e.conversation.Some? && !ConversationTaken(s.rows, e.task, e.conversation.value)
  {
    hide Sound, Faithful, Judged, Examined, InOrder, WriteAhead, Accounted, AtMostOnce;
    assert KnownOk(s, e);
  }

  ghost predicate CanGrade(s: State, candidate: Candidate, captured: Captured) {
    s.journal.Some? && s.journal.value.phase == CandidateCheckpointed
    && s.journal.value.candidate == Some(candidate)
    && s.capture.Some? && s.capture.value.captured == captured
  }

  lemma GradeKeepsInv(s: State, candidate: Candidate, captured: Captured)
    requires Inv(s) && CanGrade(s, candidate, captured)
    ensures Inv(s.(graded := s.graded + {Grade(KeyOf(s.journal.value), candidate, captured)}))
  {
    hide Sound, Accounted, WriteAhead;
  }

  ghost predicate CanPrepare(s: State) {
    s.journal.Some? && s.journal.value.phase == BenchmarkPreparing
  }

  // Runtime hooks prepare the benchmark while the journal says so.
  lemma PrepareKeepsInv(s: State)
    requires Inv(s) && CanPrepare(s)
    ensures var s' := s.(deeds := s.deeds + {(KeyOf(s.journal.value), Prepared)}); Inv(s') && Keeps(s, s')
  {
    hide Sound, Accounted, WriteAhead, Faithful, Judged, Examined, AtMostOnce, Traced;
    var deeds := s.deeds + {(KeyOf(s.journal.value), Prepared)};
    forall k, p | Prior(k, p, s.hooked, s.deeds)
      ensures Prior(k, p, s.hooked, deeds)
    {
    }
  }

  // A prompt that went out belongs to an attempt that passed every phase before, under hooks
  // also the preparation of its benchmark.
  lemma SentIsPrepared(s: State, k: Key)
    requires Inv(s) && k in s.sends
    ensures forall p: Phase | Rank(p) <= Rank(SubmissionStarted) && (Benchmarking(p) ==> k.task in s.hooked) ::
              (k, Wrote(p)) in s.deeds
    ensures k.task in s.hooked ==> (k, Prepared) in s.deeds
  {
    hide Sound, Accounted, WriteAhead, Faithful, Judged, Examined, AtMostOnce, Traced, EntryOk;
    assert Prior(k, SubmissionStarted, s.hooked, s.deeds) && Prior(k, ComposerDirty, s.hooked, s.deeds);
    if k.task in s.hooked {
      assert Prior(k, BenchmarkReady, s.hooked, s.deeds) && Prior(k, BenchmarkPreparing, s.hooked, s.deeds);
    }
    assert Prior(k, AppsPrepared, s.hooked, s.deeds);
  }

  predicate Benchmarking(p: Phase) {
    p == BenchmarkPreparing || p == BenchmarkReady
  }

  // A verdict is given while the row of the attempt is running.
  lemma JudgeKeepsInv(s: State, e: Entry, verdict: Verdict)
    requires Inv(s) && IsRunning(s, e)
    ensures var s' := s.(verdicts := s.verdicts[KeyOf(e) := verdict]); Inv(s') && Keeps(s, s')
  {
    hide Sound, Accounted, WriteAhead, Faithful, Examined, InOrder, AtMostOnce, Traced;
  }

  // A completed row holds the last verdict of its attempt; under hooks, that of the sealed
  // candidate on the checkpointed transcript.
  lemma CompletedHoldsVerdict(s: State, task: string)
    requires Inv(s) && task in s.rows && s.rows[task].status == Completed
    ensures var k := Key(task, s.rows[task].attempt);
            && HoldsVerdict(s.rows[task], k, s.verdicts)
            && (task in s.hooked ==>
                  && WasGraded(k, s.transcripts, s.sealed, s.graded)
                  && s.verdicts[k].captured == s.transcripts[k])
  {
  }

  // The capture file may be replaced or removed except while a checkpoint names it.
  lemma CaptureKeepsInv(s: State, file: Option<CaptureFile>)
    requires Inv(s)
    ensures Inv(s.(capture := file)) <==>
              (s.journal.Some? && Checkpoint(s.journal.value.phase) ==> file == s.capture)
  {
    hide Sound, Accounted, WriteAhead, Faithful, Judged, Examined, InOrder;
  }
}
