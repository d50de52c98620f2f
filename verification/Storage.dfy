// The storage service: one row per task, advanced by four requests.
module Storage {
  import opened Basics
  import opened Benchmark

  type Json = string

  datatype Status = Pending | Running | Completed | Failed

  datatype Evaluation = Evaluation(verdict: string, score: Option<real>, details: Json, metadata: Json)

  datatype Row = Row(
    logicalId: string,
    status: Status,
    runner: Option<string>,
    fingerprint: Option<Contract>,
    attempt: nat,
    conversation: Option<string>,
    messages: Option<seq<Json>>,
    metadata: Option<Json>,
    provenance: Option<Names>,
    dataset: Json,
    evaluation: Option<Evaluation>,
    error: Option<(string, string)>,
    startedAt: int,
    completedAt: Option<int>)

  type Db = map<string, Row>

  datatype Request =
    | Start(task: string, logicalId: Option<string>, runner: string, attempt: nat,
            fingerprint: Contract, provenance: Names, dataset: Json)
    | SetConversation(task: string, conversation: string, attempt: nat, runner: string)
    | Complete(task: string, conversation: string, messages: seq<Json>, metadata: Json,
               evaluation: Option<Evaluation>, attempt: nat, runner: string)
    | Fail(task: string, errorType: string, errorMessage: string, attempt: nat, runner: string)

  datatype Reply = Accepted(row: Row) | Missing | Conflict

  // ---------------------------------------------------------------- specification

  predicate RunningElsewhere(db: Db, task: string) {
    exists t | t in db :: t != task && db[t].status == Running
  }

  // The partial unique index on conversation_id.
  predicate ConversationTaken(db: Db, task: string, conversation: string) {
    exists t | t in db :: t != task && db[t].conversation == Some(conversation)
  }

  predicate EvaluationValid(e: Option<Evaluation>) {
    e.Some? ==> e.value.verdict == "pass" || e.value.verdict == "fail"
  }

  function LogicalId(r: Request): string
    requires r.Start?
  {
    if Truthy(r.logicalId) then r.logicalId.value else r.task
  }

  function FirstRow(r: Request, now: int): Row
    requires r.Start?
  {
    Row(LogicalId(r), Running, Some(r.runner), Some(r.fingerprint), 1, None, None, None,
        Some(r.provenance), r.dataset, None, None, now, None)
  }

  function RestartedRow(row: Row, r: Request, now: int): Row
    requires r.Start?
  {
    Row(row.logicalId, Running, Some(r.runner), row.fingerprint, r.attempt, None, None, None,
        Some(r.provenance), r.dataset, None, None, now, None)
  }

  function StartStep(db: Db, r: Request, now: int): (Db, Reply)
    requires r.Start?
  {
    if RunningElsewhere(db, r.task) then (db, Conflict)
    else if r.task !in db then
      if r.attempt != 1 then (db, Conflict)
      else (db[r.task := FirstRow(r, now)], Accepted(FirstRow(r, now)))
    else
      var row := db[r.task];
      if row.fingerprint != Some(r.fingerprint) || row.logicalId != LogicalId(r) then (db, Conflict)
      else match row.status
        case Running =>
          if row.dataset == r.dataset && row.attempt == r.attempt && row.runner == Some(r.runner)
             && row.provenance == Some(r.provenance)
          then (db, Accepted(row)) else (db, Conflict)
        case Failed =>
          if r.attempt != row.attempt + 1 then (db, Conflict)
          else (db[r.task := RestartedRow(row, r, now)], Accepted(RestartedRow(row, r, now)))
        case _ => (db, Conflict)
  }

  predicate Identified(row: Row, r: Request) {
    row.attempt == r.attempt && row.runner == Some(r.runner)
  }

  function SetConversationStep(db: Db, r: Request): (Db, Reply)
    requires r.SetConversation?
  {
    if r.task !in db then (db, Missing)
    else
      var row := db[r.task];
      if !Identified(row, r) then (db, Conflict)
      else if row.status == Completed then
        if row.conversation == Some(r.conversation) then (db, Accepted(row)) else (db, Conflict)
      else if row.status != Running then (db, Conflict)
      else if Truthy(row.conversation) && row.conversation != Some(r.conversation) then (db, Conflict)
      else if ConversationTaken(db, r.task, r.conversation) then (db, Conflict)
      else
        var row' := row.(conversation := Some(r.conversation));
        (db[r.task := row'], Accepted(row'))
  }

  function CompletedRow(row: Row, r: Request, now: int): Row
    requires r.Complete?
  {
    row.(status := Completed, conversation := Some(r.conversation), messages := Some(r.messages),
         metadata := Some(r.metadata), evaluation := r.evaluation, error := None,
         completedAt := Some(now))
  }

  function CompleteStep(db: Db, r: Request, now: int): (Db, Reply)
    requires r.Complete?
  {
    if r.task !in db then (db, Missing)
    else
      var row := db[r.task];
      if !Identified(row, r) || row.provenance.None? || !EvaluationValid(r.evaluation) then (db, Conflict)
      else if row.status == Completed then
        if row.conversation == Some(r.conversation) && row.messages == Some(r.messages)
           && GetOr(row.metadata, "{}") == r.metadata && row.evaluation == r.evaluation
        then (db, Accepted(row)) else (db, Conflict)
      else if row.status != Running then (db, Conflict)
      else if Truthy(row.conversation) && row.conversation != Some(r.conversation) then (db, Conflict)
      else if ConversationTaken(db, r.task, r.conversation) then (db, Conflict)
      else (db[r.task := CompletedRow(row, r, now)], Accepted(CompletedRow(row, r, now)))
  }

  function FailStep(db: Db, r: Request): (Db, Reply)
    requires r.Fail?
  {
    if r.task !in db then (db, Missing)
    else
      var row := db[r.task];
      if !Identified(row, r) then (db, Conflict)
      else match row.status
        case Completed => (db, Accepted(row))
        case Failed =>
          if row.error == Some((r.errorType, r.errorMessage)) then (db, Accepted(row)) else (db, Conflict)
        case Running =>
          var row' := row.(status := Failed, evaluation := None, error := Some((r.errorType, r.errorMessage)));
          (db[r.task := row'], Accepted(row'))
        case Pending => (db, Conflict)
  }

  function Step(db: Db, r: Request, now: int): (Db, Reply) {
    match r
    case Start(_, _, _, _, _, _, _) => StartStep(db, r, now)
    case SetConversation(_, _, _, _) => SetConversationStep(db, r)
    case Complete(_, _, _, _, _, _, _) => CompleteStep(db, r, now)
    case Fail(_, _, _, _, _) => FailStep(db, r)
  }

  // ---------------------------------------------------------------- the service

  class Repository {
    var rows: Db

    constructor ()
      ensures rows == map[]
    {
      rows := map[];
    }

    method StartRun(r: Request, now: int) returns (reply: Reply)
      requires r.Start?
      modifies this
      ensures (rows, reply) == Step(old(rows), r, now)
    {
      if RunningElsewhere(rows, r.task) {
        return Conflict;
      }
      if r.task !in rows {
        if r.attempt != 1 {
          return Conflict;
        }
        var created := FirstRow(r, now);
        rows := rows[r.task := created];
        return Accepted(created);
      }
      var run := rows[r.task];
      if run.fingerprint.None? {
        return Conflict;
      } else if run.fingerprint != Some(r.fingerprint) {
        return Conflict;
      } else if run.logicalId != LogicalId(r) {
        return Conflict;
      } else if run.status == Completed {
        return Conflict;
      } else if run.status == Running {
        if run.dataset != r.dataset {
          return Conflict;
        }
        if run.attempt == r.attempt && run.runner == Some(r.runner) {
          if run.provenance.None? || run.provenance != Some(r.provenance) {
            return Conflict;
          }
          return Accepted(run);
        }
        return Conflict;
      } else if run.status == Failed {
        if r.attempt != run.attempt + 1 {
          return Conflict;
        }
        run := run.(status := Running, runner := Some(r.runner), attempt := r.attempt, startedAt := now);
        run := run.(completedAt := None, conversation := None, messages := None, metadata := None);
        run := run.(provenance := Some(r.provenance), dataset := r.dataset, evaluation := None, error := None);
        rows := rows[r.task := run];
        return Accepted(run);
      } else {
        return Conflict;
      }
    }

    method AssignConversation(r: Request) returns (reply: Reply)
      requires r.SetConversation?
      modifies this
      ensures (rows, reply) == SetConversationStep(old(rows), r)
    {
      if r.task !in rows {
        return Missing;
      }
      var run := rows[r.task];
      if run.attempt != r.attempt || run.runner != Some(r.runner) {
        return Conflict;
      }
      if run.status == Completed {
        if run.conversation == Some(r.conversation) {
          return Accepted(run);
        }
        return Conflict;
      }
      if run.status != Running {
        return Conflict;
      }
      if Truthy(run.conversation) && run.conversation != Some(r.conversation) {
        return Conflict;
      }
      if ConversationTaken(rows, r.task, r.conversation) {
        return Conflict;  // the commit hits the unique index and is rolled back
      }
      run := run.(conversation := Some(r.conversation));
      rows := rows[r.task := run];
      return Accepted(run);
    }

    method CompleteRun(r: Request, now: int) returns (reply: Reply)
      requires r.Complete?
      modifies this
      ensures (rows, reply) == Step(old(rows), r, now)
    {
      if r.task !in rows {
        return Missing;
      }
      var run := rows[r.task];
      if run.attempt != r.attempt || run.runner != Some(r.runner) {
        return Conflict;
      }
      if run.provenance.None? {
        return Conflict;
      }
      if !EvaluationValid(r.evaluation) {
        return Conflict;
      }
      if run.status == Completed {
        if !(run.conversation == Some(r.conversation) && run.messages == Some(r.messages)
             && GetOr(run.metadata, "{}") == r.metadata) {
          return Conflict;
        }
        if run.evaluation != r.evaluation {
          return Conflict;
        }
        return Accepted(run);
      }
      if run.status != Running {
        return Conflict;
      }
      if Truthy(run.conversation) && run.conversation != Some(r.conversation) {
        return Conflict;
      }
      if ConversationTaken(rows, r.task, r.conversation) {
        return Conflict;
      }
      run := run.(status := Completed, conversation := Some(r.conversation));
      run := run.(messages := Some(r.messages), metadata := Some(r.metadata), evaluation := r.evaluation);
      run := run.(error := None, completedAt := Some(now));
      rows := rows[r.task := run];
      return Accepted(run);
    }

    method FailRun(r: Request) returns (reply: Reply)
      requires r.Fail?
      modifies this
      ensures (rows, reply) == FailStep(old(rows), r)
    {
      if r.task !in rows {
        return Missing;
      }
      var run := rows[r.task];
      if run.attempt != r.attempt || run.runner != Some(r.runner) {
        return Conflict;
      }
      if run.status == Completed {
        return Accepted(run);
      }
      if run.status == Failed {
        if run.error == Some((r.errorType, r.errorMessage)) {
          return Accepted(run);
        }
        return Conflict;
      }
      if run.status != Running {
        return Conflict;
      }
      run := run.(status := Failed, evaluation := None, error := Some((r.errorType, r.errorMessage)));
      rows := rows[r.task := run];
      return Accepted(run);
    }

    method Serve(r: Request, now: int) returns (reply: Reply)
      modifies this
      ensures (rows, reply) == Step(old(rows), r, now)
    {
      match r
      case Start(_, _, _, _, _, _, _) => reply := StartRun(r, now);
      case SetConversation(_, _, _, _) => reply := AssignConversation(r);
      case Complete(_, _, _, _, _, _, _) => reply := CompleteRun(r, now);
      case Fail(_, _, _, _, _) => reply := FailRun(r);
    }
  }
}
