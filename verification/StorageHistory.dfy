// What every request history keeps, and why a request may be sent again at any time.
module StorageHistory {
  import opened Basics
  import opened Storage

  // ---------------------------------------------------------------- reachable databases

  // Invariant of every database the service can reach.
  ghost predicate Sound(db: Db) {
    && (forall s, t | s in db && t in db && db[s].status == Running && db[t].status == Running :: s == t)
    && (forall s, t | s in db && t in db && s != t && db[s].conversation.Some? ::
          db[s].conversation != db[t].conversation)
    && (forall t | t in db :: SoundRow(t, db[t]))
  }

  predicate SoundRow(task: string, row: Row) {
    && row.attempt >= 1
    && row.status != Pending
    && row.runner.Some? && row.fingerprint.Some? && row.provenance.Some?
    && EvaluationValid(row.evaluation)
    && (row.status == Completed ==> row.conversation.Some? && row.messages.Some? && row.metadata.Some?)
    && (row.status != Completed ==> row.messages.None? && row.metadata.None? && row.evaluation.None?)
    && (row.status == Completed <==> row.completedAt.Some?)
    && (row.status == Failed <==> row.error.Some?)
  }

  // One row is never taken back: a completed row is final, an attempt keeps its identity
  // while it lasts, and the next attempt is one more, started over a failed row.
  predicate RowAdvances(a: Row, b: Row) {
    && (a.status == Completed ==> b == a)
    && a.fingerprint == b.fingerprint && a.logicalId == b.logicalId
    && (b.attempt == a.attempt ||
        (b.attempt == a.attempt + 1 && a.status == Failed && b.status == Running))
    && (b.attempt == a.attempt ==>
          && b.runner == a.runner && b.provenance == a.provenance && b.dataset == a.dataset
          && b.startedAt == a.startedAt
          && (a.status == Failed ==> b == a)
          && (Truthy(a.conversation) ==> b.conversation == a.conversation))
  }

  // A row may be put in place when it does not clash with the rows of the other tasks.
  lemma PutIsSound(db: Db, task: string, row: Row)
    requires Sound(db) && SoundRow(task, row)
    requires row.status == Running ==> !RunningElsewhere(db, task)
    requires row.conversation.Some? ==> !ConversationTaken(db, task, row.conversation.value)
    ensures Sound(db[task := row])
  {
    var db' := db[task := row];
    forall s, t | s in db' && t in db' && s != t && db'[s].conversation.Some?
      ensures db'[s].conversation != db'[t].conversation
    {
      if s == task {
        assert t in db && t != task;
      } else if t == task && row.conversation.Some? {
        assert s in db && s != task;
      }
    }
  }

  // A request touches at most the row of its own task, and only to advance it.
  ghost predicate Advanced(db: Db, task: string, db': Db) {
    db' == db ||
    (task in db' && db' == db[task := db'[task]] && SoundRow(task, db'[task])
     && (if task in db then RowAdvances(db[task], db'[task]) else db'[task].attempt == 1))
  }

  lemma StartAdvances(db: Db, r: Request, now: int)
    requires Sound(db) && r.Start?
    ensures Advanced(db, r.task, StartStep(db, r, now).0) && Sound(StartStep(db, r, now).0)
  {
    var (db', reply) := StartStep(db, r, now);
    if db' != db {
      PutIsSound(db, r.task, db'[r.task]);
    }
  }

  lemma ConversationAdvances(db: Db, r: Request)
    requires Sound(db) && r.SetConversation?
    ensures Advanced(db, r.task, SetConversationStep(db, r).0) && Sound(SetConversationStep(db, r).0)
  {
    var (db', reply) := SetConversationStep(db, r);
    if db' != db {
      PutIsSound(db, r.task, db'[r.task]);
    }
  }

  lemma CompleteAdvances(db: Db, r: Request, now: int)
    requires Sound(db) && r.Complete?
    ensures Advanced(db, r.task, CompleteStep(db, r, now).0) && Sound(CompleteStep(db, r, now).0)
  {
    var (db', reply) := CompleteStep(db, r, now);
    if db' != db {
      PutIsSound(db, r.task, db'[r.task]);
    }
  }

  lemma FailAdvances(db: Db, r: Request)
    requires Sound(db) && r.Fail?
    ensures Advanced(db, r.task, FailStep(db, r).0) && Sound(FailStep(db, r).0)
  {
    var (db', reply) := FailStep(db, r);
    if db' != db {
      var row := db[r.task];
      if row.conversation.Some? && ConversationTaken(db, r.task, row.conversation.value) {
        assert false;
      }
      PutIsSound(db, r.task, db'[r.task]);
    }
  }

  lemma StepAdvances(db: Db, r: Request, now: int)
    requires Sound(db)
    ensures Sound(Step(db, r, now).0)
    ensures Advanced(db, r.task, Step(db, r, now).0)
  {
    match r
    case Start(_, _, _, _, _, _, _) => StartAdvances(db, r, now);
    case SetConversation(_, _, _, _) => ConversationAdvances(db, r);
    case Complete(_, _, _, _, _, _, _) => CompleteAdvances(db, r, now);
    case Fail(_, _, _, _, _) => FailAdvances(db, r);
  }

  lemma RefusedChangesNothing(db: Db, r: Request, now: int)
    ensures !Step(db, r, now).1.Accepted? ==> Step(db, r, now).0 == db
  {
  }

  // ---------------------------------------------------------------- settled requests

  // The row is past anything this request could still do to it.
  predicate Settled(db: Db, r: Request) {
    r.task in db &&
    var row := db[r.task];
    match r
    case Start(_, _, _, k, _, _, _) => row.attempt >= k
    case SetConversation(_, c, k, _) =>
      row.attempt > k ||
      (row.attempt == k && (row.status != Running || row.conversation == Some(c) || Truthy(row.conversation)))
    case _ => row.attempt > r.attempt || (row.attempt == r.attempt && row.status != Running)
  }

  lemma AcceptedIsSettled(db: Db, r: Request, now: int)
    requires Step(db, r, now).1.Accepted?
    ensures Settled(Step(db, r, now).0, r)
  {
  }

  lemma SettledStays(db: Db, r: Request, other: Request, now: int)
    requires Sound(db) && Settled(db, r)
    ensures Settled(Step(db, other, now).0, r)
  {
    if r.SetConversation? {
      StepAdvances(db, other, now);
    } else {
      PassedStays(db, r, other, now);
    }
  }

  lemma PassedStays(db: Db, r: Request, other: Request, now: int)
    requires Sound(db) && Settled(db, r) && !r.SetConversation?
    ensures Settled(Step(db, other, now).0, r)
  {
    hide Step;
    StepAdvances(db, other, now);
  }

  lemma SettledChangesNothing(db: Db, r: Request, now: int)
    requires Settled(db, r)
    ensures Step(db, r, now).0 == db
  {
    var row := db[r.task];
    assert db[r.task := row] == db;
  }

  // ---------------------------------------------------------------- histories

  datatype Timed = At(request: Request, now: int)

  ghost function After(db: Db, history: seq<Timed>): Db
    decreases |history|
  {
    if history == [] then db
    else Step(After(db, history[..|history| - 1]), history[|history| - 1].request, history[|history| - 1].now).0
  }

  lemma {:induction false} HistoryIsSound(history: seq<Timed>)
    ensures Sound(After(map[], history))
    decreases |history|
  {
    if history != [] {
      var n := |history| - 1;
      HistoryIsSound(history[..n]);
      StepAdvances(After(map[], history[..n]), history[n].request, history[n].now);
    }
  }

  lemma {:induction false} SettledAtTheEnd(history: seq<Timed>, i: nat)
    requires i < |history|
    requires Step(After(map[], history[..i]), history[i].request, history[i].now).1.Accepted?
    ensures Settled(After(map[], history), history[i].request)
    decreases |history|
  {
    var n := |history| - 1;
    var before := history[..n];
    if i == n {
      AcceptedIsSettled(After(map[], before), history[n].request, history[n].now);
    } else {
      assert before[..i] == history[..i];
      SettledAtTheEnd(before, i);
      HistoryIsSound(before);
      SettledStays(After(map[], before), history[i].request, history[n].request, history[n].now);
    }
  }

  // Replaying any accepted request after any further history leaves the database as it is.
  lemma {:induction false} ReplayIsHarmless(history: seq<Timed>, i: nat, now: int)
    requires i < |history|
    requires Step(After(map[], history[..i]), history[i].request, history[i].now).1.Accepted?
    ensures Step(After(map[], history), history[i].request, now).0 == After(map[], history)
  {
    SettledAtTheEnd(history, i);
    SettledChangesNothing(After(map[], history), history[i].request, now);
  }

  lemma VerdictIsTimeless(db: Db, r: Request, now: int, later: int)
    ensures Step(db, r, now).1.Accepted? == Step(db, r, later).1.Accepted?
    ensures Step(db, r, now).0 == db ==> Step(db, r, later) == Step(db, r, now)
    ensures !Step(db, r, now).1.Accepted? ==> Step(db, r, now).0 == db
    ensures Step(db, r, now).1.Accepted? ==>
              r.task in Step(db, r, now).0 && Step(db, r, now).0[r.task] == Step(db, r, now).1.row
  {
  }

  lemma SettledIsAccepted(db: Db, r: Request, now: int, later: int)
    requires Step(db, r, now).1.Accepted?
    ensures Step(Step(db, r, now).0, r, later).1.Accepted?
  {
  }

  // A retry of a request that was just served returns the same verdict and the same row.
  lemma RetryAgrees(db: Db, r: Request, now: int, later: int)
    requires Sound(db)
    ensures Step(Step(db, r, now).0, r, later) == Step(db, r, now)
  {
    hide Step, Sound, Settled;
    var db' := Step(db, r, now).0;
    VerdictIsTimeless(db, r, now, later);
    if Step(db, r, now).1.Accepted? {
      AcceptedIsSettled(db, r, now);
      SettledIsAccepted(db, r, now, later);
      SettledChangesNothing(db', r, later);
      VerdictIsTimeless(db', r, later, later);
    }
  }

  // In every reachable database at most one task is running, and between any two moments
  // of a history no attempt number is skipped or taken back and no completed row changes.
  ghost predicate RowLater(a: Row, b: Row) {
    && a.attempt <= b.attempt
    && a.fingerprint == b.fingerprint && a.logicalId == b.logicalId
    && (a.status == Completed ==> b == a)
    && (a.attempt == b.attempt ==>
          && b.runner == a.runner && b.provenance == a.provenance && b.dataset == a.dataset
          && (a.status == Failed ==> b == a)
          && (Truthy(a.conversation) ==> b.conversation == a.conversation))
  }

  lemma {:induction false} HistoryNeverTakesBack(history: seq<Timed>, i: nat, task: string)
    requires i <= |history|
    requires task in After(map[], history[..i])
    ensures task in After(map[], history)
    ensures RowLater(After(map[], history[..i])[task], After(map[], history)[task])
    decreases |history|
  {
    hide Step, Sound;
    var n := |history|;
    if i == n {
      assert history[..i] == history;
    } else {
      var before := history[..n - 1];
      assert before[..i] == history[..i];
      HistoryNeverTakesBack(before, i, task);
      HistoryIsSound(before);
      StepAdvances(After(map[], before), history[n - 1].request, history[n - 1].now);
    }
  }

  // Every attempt from the first to the current one has been started: the attempt numbers
  // the accepted starts of a task received are 1, 2, ..., without gap or repetition.
  ghost function Starts(history: seq<Timed>, task: string): seq<nat>
    decreases |history|
  {
    if history == [] then []
    else
      var n := |history| - 1;
      var db := After(map[], history[..n]);
      var r := history[n].request;
      var db' := Step(db, r, history[n].now).0;
      Starts(history[..n], task) +
      (if r.Start? && r.task == task && db' != db then [r.attempt] else [])
  }

  lemma {:induction false} AttemptsAreConsecutive(history: seq<Timed>, task: string)
    ensures var db := After(map[], history);
            |Starts(history, task)| == if task in db then db[task].attempt else 0
    ensures forall i | 0 <= i < |Starts(history, task)| :: Starts(history, task)[i] == i + 1
    decreases |history|
  {
    hide Step, Sound;
    if history != [] {
      var n := |history| - 1;
      AttemptsAreConsecutive(history[..n], task);
      HistoryIsSound(history[..n]);
      OneMoreStart(After(map[], history[..n]), history[n].request, history[n].now, task);
    }
  }

  // Only a start that takes effect moves the attempt of a task, to the one it names.
  lemma OneMoreStart(db: Db, r: Request, now: int, task: string)
    requires Sound(db)
    ensures var db' := Step(db, r, now).0;
            var before := if task in db then db[task].attempt else 0;
            if r.Start? && r.task == task && db' != db then
              task in db' && r.attempt == db'[task].attempt == before + 1
            else
              (if task in db' then db'[task].attempt else 0) == before
  {
    StepAdvances(db, r, now);
    AcceptedMeans(db, r, now);
  }

  // ---------------------------------------------------------------- what an accepted request means

  // The row says what the request says.
  predicate Says(row: Row, r: Request) {
    && Identified(row, r)
    && match r
       case Start(_, _, _, _, fingerprint, provenance, dataset) =>
         && row.status == Running && row.logicalId == LogicalId(r) && row.dataset == dataset
         && row.fingerprint == Some(fingerprint) && row.provenance == Some(provenance)
       case SetConversation(_, c, _, _) =>
         (row.status == Running || row.status == Completed) && row.conversation == Some(c)
       case Complete(_, c, messages, metadata, evaluation, _, _) =>
         && row.status == Completed && row.conversation == Some(c) && row.messages == Some(messages)
         && row.metadata == Some(metadata) && row.evaluation == evaluation
       case Fail(_, errorType, errorMessage, _, _) =>
         row.status == Failed && row.error == Some((errorType, errorMessage))
  }

  // A failure is also answered by the row of an attempt that has completed.
  predicate Carries(row: Row, r: Request) {
    Says(row, r) || (r.Fail? && Identified(row, r) && row.status == Completed)
  }

  // The row that an accepted request leaves behind says it, and a start leaves a clean one.
  predicate Written(row: Row, r: Request, now: int) {
    && Says(row, r)
    && (r.Start? ==> row.conversation == None && row.startedAt == now)
    && (r.Complete? ==> row.completedAt == Some(now))
  }

  // The row is open to what the request says.
  ghost predicate Open(db: Db, r: Request) {
    match r
    case Start(task, _, _, attempt, fingerprint, _, _) =>
      && (forall t | t in db && t != task :: db[t].status != Running)
      && if task in db then
           && db[task].status == Failed && attempt == db[task].attempt + 1
           && db[task].fingerprint == Some(fingerprint) && db[task].logicalId == LogicalId(r)
         else attempt == 1
    case SetConversation(task, c, _, _) => OpenTo(db, r, c)
    case Complete(task, c, _, _, evaluation, _, _) => OpenTo(db, r, c) && EvaluationValid(evaluation)
    case Fail(task, _, _, _, _) => task in db && Identified(db[task], r) && db[task].status == Running
  }

  ghost predicate OpenTo(db: Db, r: Request, conversation: string) {
    && r.task in db && Identified(db[r.task], r) && db[r.task].status == Running
    && (Truthy(db[r.task].conversation) ==> db[r.task].conversation == Some(conversation))
    && forall t | t in db && t != r.task :: db[t].conversation != Some(conversation)
  }

  // A request is accepted exactly when the row already carries it or is open to it, and then
  // the row carries it.
  lemma AcceptedMeans(db: Db, r: Request, now: int)
    requires Sound(db)
    ensures var (db', reply) := Step(db, r, now);
            && (reply.Accepted? <==> (r.task in db && Carries(db[r.task], r)) || Open(db, r))
            && (reply.Accepted? ==> r.task in db' && reply.row == db'[r.task] && Carries(reply.row, r))
            && (Open(db, r) ==> reply.Accepted? && Written(reply.row, r, now))
            && (!Open(db, r) ==> db' == db)
            && (reply == Missing <==> !r.Start? && r.task !in db)
  {
    match r
    case Start(_, _, _, _, _, _, _) =>
    case SetConversation(_, c, _, _) =>
      assert r.task in db && db[r.task].conversation == Some(c) ==> !ConversationTaken(db, r.task, c);
    case Complete(_, c, _, _, _, _, _) =>
    case Fail(_, _, _, _, _) =>
  }

  ghost predicate AcceptedAt(history: seq<Timed>, i: nat) {
    i < |history| && Step(After(map[], history[..i]), history[i].request, history[i].now).1.Accepted?
  }

  // What an accepted request wrote, at that moment.
  lemma {:induction false} AcceptedIsCarried(history: seq<Timed>, i: nat)
    requires AcceptedAt(history, i)
    ensures var r := history[i].request;
            r.task in After(map[], history[..i + 1]) && Carries(After(map[], history[..i + 1])[r.task], r)
  {
    hide Step, Sound, Carries, Open;
    var n := history[..i + 1];
    assert n[..i] == history[..i];
    HistoryIsSound(history[..i]);
    AcceptedMeans(After(map[], history[..i]), history[i].request, history[i].now);
  }

  // The row of an accepted request, at that moment and at any later one.
  lemma {:induction false} Later(history: seq<Timed>, i: nat, j: nat, task: string)
    requires i <= j <= |history| && task in After(map[], history[..i])
    ensures task in After(map[], history[..j])
    ensures RowLater(After(map[], history[..i])[task], After(map[], history[..j])[task])
  {
    hide Step, Sound, RowLater;
    assert history[..j][..i] == history[..i];
    HistoryNeverTakesBack(history[..j], i, task);
  }

  // Of two accepted requests of one attempt, the row after the first one has come to carry
  // the second one by the time it is answered.
  lemma {:induction false} BothCarried(history: seq<Timed>, i: nat, j: nat)
    requires i < j && AcceptedAt(history, i) && AcceptedAt(history, j)
    requires history[i].request.task == history[j].request.task
    ensures var r, q := history[i].request, history[j].request;
            var first, before, second := After(map[], history[..i + 1]), After(map[], history[..j]),
                                         After(map[], history[..j + 1]);
            && r.task in first && r.task in before && r.task in second
            && Carries(first[r.task], r) && Carries(second[r.task], q)
            && RowLater(first[r.task], before[r.task]) && RowLater(first[r.task], second[r.task])
            && (Carries(before[r.task], q) || Open(before, q))
  {
    hide Step, Sound, RowLater, Carries, Open;
    AcceptedIsCarried(history, i);
    AcceptedIsCarried(history, j);
    Later(history, i + 1, j, history[i].request.task);
    Later(history, i + 1, j + 1, history[i].request.task);
    HistoryIsSound(history[..j]);
    AcceptedMeans(After(map[], history[..j]), history[j].request, history[j].now);
  }

  // An accepted completion is for good: at the end the row holds exactly what it said.
  lemma {:induction false} CompletionStands(history: seq<Timed>, i: nat)
    requires AcceptedAt(history, i) && history[i].request.Complete?
    ensures var r := history[i].request;
            r.task in After(map[], history) && Carries(After(map[], history)[r.task], r)
  {
    hide Step, Sound;
    AcceptedIsCarried(history, i);
    HistoryNeverTakesBack(history, i + 1, history[i].request.task);
  }

  // Any two accepted completions of a task say the same, and the row holds it.
  lemma {:induction false} CompletionsAgree(history: seq<Timed>, i: nat, j: nat)
    requires AcceptedAt(history, i) && AcceptedAt(history, j)
    requires history[i].request.Complete? && history[j].request.Complete?
    requires history[i].request.task == history[j].request.task
    ensures history[i].request == history[j].request
    ensures var r := history[i].request;
            r.task in After(map[], history) && Carries(After(map[], history)[r.task], r)
  {
    hide Step, Sound;
    CompletionStands(history, i);
    CompletionStands(history, j);
  }

  // The first conversation an attempt is given is its only one, also for its completion.
  lemma {:induction false} ConversationsAgree(history: seq<Timed>, i: nat, j: nat)
    requires i < j && AcceptedAt(history, i) && AcceptedAt(history, j)
    requires var r, q := history[i].request, history[j].request;
             && r.SetConversation? && r.conversation != "" && (q.SetConversation? || q.Complete?)
             && r.task == q.task && r.attempt == q.attempt
    ensures history[i].request.conversation == history[j].request.conversation
    ensures history[i].request.runner == history[j].request.runner
  {
    hide Step, Sound, Open;
    BothCarried(history, i, j);
  }

  // Two failures of one attempt report the same error, unless the attempt has completed.
  lemma {:induction false} FailuresAgree(history: seq<Timed>, i: nat, j: nat)
    requires i < j && AcceptedAt(history, i) && AcceptedAt(history, j)
    requires history[i].request.Fail? && history[j].request.Fail?
    requires history[i].request.task == history[j].request.task
    requires history[i].request.attempt == history[j].request.attempt
    ensures var db, r := After(map[], history[..i + 1]), history[i].request;
            r == history[j].request || (r.task in db && db[r.task].status == Completed)
  {
    hide Step, Sound, Open;
    BothCarried(history, i, j);
  }

  // An attempt is started once: every accepted start of it says the same.
  lemma {:induction false} StartsAgree(history: seq<Timed>, i: nat, j: nat)
    requires i < j && AcceptedAt(history, i) && AcceptedAt(history, j)
    requires history[i].request.Start? && history[j].request.Start?
    requires history[i].request.task == history[j].request.task
    requires history[i].request.attempt == history[j].request.attempt
    ensures var r, q := history[i].request, history[j].request;
            q == r.(logicalId := q.logicalId) && LogicalId(q) == LogicalId(r)
  {
    hide Step, Sound, Open;
    BothCarried(history, i, j);
  }

  // An attempt has one outcome: beside an accepted completion, earlier or later, an accepted
  // failure has changed nothing.
  lemma {:induction false} OutcomeIsOne(history: seq<Timed>, i: nat, j: nat)
    requires AcceptedAt(history, i) && AcceptedAt(history, j)
    requires history[i].request.Complete? && history[j].request.Fail?
    requires history[i].request.task == history[j].request.task
    requires history[i].request.attempt == history[j].request.attempt
    ensures After(map[], history[..j + 1]) == After(map[], history[..j])
  {
    hide Step, Sound;
    assert history[..j + 1][..j] == history[..j];
    HistoryIsSound(history[..j]);
    AcceptedMeans(After(map[], history[..j]), history[j].request, history[j].now);
    if i < j {
      BothCarried(history, i, j);
    } else {
      BothCarried(history, j, i);
      Later(history, j, j + 1, history[j].request.task);
    }
  }
}
