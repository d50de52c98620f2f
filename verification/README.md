# Verified models of the trace runner

Dafny models of the parts of the trace runner, its storage service, its workstation broker
and its guest agent in which a mistake would be silent: a prompt sent twice, a result
attributed to the wrong call, a workspace mistaken for another. `dafny verify dfyconfig.toml`
checks the whole project.

**Crash recovery** (`Storage`, `StorageHistory`, `StorageClient`, `Conversation`, `Journal`,
`Protocol`, `Site`, `Effects`, `Requests`, `Runner`, `Recovery`, `Crashes`, `Sessions`). The
storage service is a class over a table of rows, proved against a step function. The runner is
the sequence of effects the source performs: journal writes, storage calls, VM creation and
destruction, the click on Send, the capture file. Every effect can fail, or the process can
die, before or after it took place; a lost reply is followed by one resend. One invariant over
everything that outlives the process (`Protocol.Inv`) is kept by every effect in every order
the code can produce: a running row or a live VM is named by the journal, nothing is sent
twice, nothing that was sent, checkpointed or sealed is forgotten while its attempt is open,
no attempt skips a journal phase or the preparation by its hooks, and a completed row holds the
last verdict of its attempt with the transcript it was given for. Each effect of
`Effects.Hands` demands the guard under which the invariant survives, so the order of steps
in `Runner` and `Recovery` is what is being verified. A value `calm` says that no
fault happens from here on; the convergence statements are about calm runs. `Sessions.Operate`
closes the loop: any sequence of operator commands, each in a new process, each dying
anywhere.

**Run control and scheduling** (`RunControl`, `RunHistory`, `Scheduler`). The store's one
read-modify-write with every point at which SIGINT can strike; handlers can nest. What the
control file says is explained by the history of its transitions. On top of it the scheduler
of the frozen selection, whose completed marks always agree with storage, and which in a run
without faults ends, paused or completed, whenever nothing stored stands in the way.

**Export** (`Identity`, `Normalize`, `Indexing`, `Linking`, `Validator`, `Export`). The two
passes that link tool results to calls, what the rows say of any conversation, message by
message and call by call, the check an exported row must pass, and the exact condition under
which one's output passes the other.

**Provenance** (`Provenance`, `Invocations`). The join of assistant calls to tool results, told
by the fields of the messages, and the incidents derived from it.

**Codecs and streams** (`Text`, `Workspace`, `Sse`, `Keyboard`, `Shell`, `Transfer`,
`Readback`). The workspace hash input, the server-sent-event parser, the keyboard encoder
against a decoder, the bounded terminal buffer, the three-layer chunked transfer, and the pacing of readback.

Conventions: hashes are ideal (a digest is a datatype around what was hashed); task
fingerprints are the contract they cover; JSON is text; an absent or empty optional field is
`""` where the source only tests its truth. In `Provenance` a call is its place in the list, so
an entry of the waiting list is a reference to it. In `Readback` time passes between any two
statements.

## What the proofs brought out

- Recovery does not end every crash state. Besides a benchmark that no longer describes the
  attempt (the task is gone, its contract changed, or its App names changed and there is no row,
  `Recovery.Known`), it refuses four kinds and nothing else (`Recovery.Stuck`), each of which is
  reached by effects of the runner and a crash (`Crashes`): a started submission whose user
  message was never named; `starting` over the failed previous attempt; under hooks, `starting`
  without a row; and under hooks, `starting` with a running row and the VM of the default image
  already there, because the broker refuses to create it again
  (`apps/workstation-broker/src/workstation_broker/server.py:279-294`). Giving the attempt up ends
  all but the second and the third (`Sessions.OnlyDeadEndsRemain`).
- The unique index on conversations never refuses the runner: a conversation is known only after
  it was seen to hold exactly the posted message, so no other row can have it
  (`Protocol.KnownIsFree`). This rests on the frontend giving every prompt a message id of its
  own.
- A failure before the runner starts is recorded by a start and a fail without a journal. A
  crash between the two leaves a running row that nothing recovers and that blocks every other
  task (`Scheduler.PreRunnerFailure`).
- `run_task` writes its journal over whatever entry is there. That is safe exactly over an entry
  that could be cleared (`Protocol.OverwriteKeepsInv`), and the scheduler calls it over none.
- The comment on incidents speaks of assistant calls only
  (`apps/runner/src/gpt_trace_runner/provenance.py:339-344`). Some incident is something else
  exactly when an observation outside of results that makes no call, resolves to a tool and
  carries a link comes while no waiting call is compatible with it
  (`Provenance.IncidentsOutsideCalls`, with a conversation of one message in
  `Provenance.EchoBecomesAnIncident`).
- A result whose name changes no link and whose parent is a message at or after it takes the
  call of that message if it makes exactly one, and the export check then refuses the row
  (`Export.LoneForwardParentIsRefused`). A later parent with several calls gives no link, and
  the row may be accepted (`Export.NormalizedRowIsAccepted`).
- Provider, broker and guest limit a transfer separately, and the smallest limit decides. A
  path the guest writes differently is refused only after the target was replaced
  (`Transfer.Provider.ImportBytes`, with a relative name in
  `Transfer.RelativePathIsRefusedLate`).
- The first readback is compared with the deadline only after a stored cooldown
  (`Readback.Client.FetchRecoverySnapshot`, with no time left in `Readback.LateFirstFetch`).

## Model

| member | source | states |
|---|---|---|
| Storage.Repository.StartRun | apps/storage/src/gpt_trace_storage/repository.py:65-155 | A start creates the first attempt, restarts a failed row as exactly the next attempt with every result field cleared, returns the running row unchanged to a duplicate, and is a conflict in every other case, above all while another task is running. |
| Storage.Repository.AssignConversation | apps/storage/src/gpt_trace_storage/repository.py:158-187 | The running attempt of this runner gets the conversation unless it has another one or another row holds it; a completed row only confirms its own. |
| Storage.Repository.CompleteRun | apps/storage/src/gpt_trace_storage/repository.py:190-245 | Only the running attempt of this runner completes, under its own conversation and with a valid verdict; a completed row only confirms an identical request. What an acceptance means is said by StorageHistory.AcceptedMeans and the rows after it. |
| Storage.Repository.FailRun | apps/storage/src/gpt_trace_storage/repository.py:248-276 | Only the running attempt fails; a completed row stays completed and a failed row only confirms the same error. |
| Storage.Repository.Serve | apps/storage/src/gpt_trace_storage/repository.py:65-276 | One request of any kind takes the table to the specified next table and gives the specified reply. |
| StorageHistory.StepAdvances | apps/storage/src/gpt_trace_storage/repository.py:65-276 | Every request keeps the table sound (one running row, conversations unique, completed rows whole) and moves at most the row of its own task, forward. |
| StorageHistory.RefusedChangesNothing | apps/storage/src/gpt_trace_storage/repository.py:65-276 | A request that is not accepted leaves every row as it was. |
| StorageHistory.AcceptedMeans | apps/storage/src/gpt_trace_storage/repository.py:65-276 | In any reachable table a request is accepted exactly when the row already says what it says or is open to it; an accepted request leaves a row that says exactly that (a start without conversation or results, a completion with its conversation, messages, metadata and evaluation, a failure with its error), and only an open row changes. A failure is also accepted, without effect, over a completed row. |
| StorageHistory.HistoryIsSound | apps/storage/src/gpt_trace_storage/repository.py:65-276 | In every database any request history can reach, at most one row is running and no conversation id is held twice. |
| StorageHistory.SettledAtTheEnd | apps/storage/src/gpt_trace_storage/repository.py:65-276 | After any further history, an accepted request finds its row past anything it could still do to it. |
| StorageHistory.ReplayIsHarmless | apps/storage/src/gpt_trace_storage/repository.py:65-276 | Replaying any earlier accepted request, after any further history over any tasks and at any time, leaves the database unchanged. |
| StorageHistory.RetryAgrees | apps/storage/src/gpt_trace_storage/repository.py:65-276 | A request that was just served gives the same reply and the same database when it is served again. |
| StorageHistory.HistoryNeverTakesBack | apps/storage/src/gpt_trace_storage/repository.py:65-276 | Between any two moments of a history a row keeps its identity and logical id, its attempt number never falls, a completed row never changes, and a failed row changes only by a new attempt. |
| StorageHistory.AttemptsAreConsecutive | apps/storage/src/gpt_trace_storage/repository.py:71-152 | The starts that took effect on a task are its attempts 1, 2, 3, and so on, without gap or repetition. |
| StorageHistory.CompletionsAgree | apps/storage/src/gpt_trace_storage/repository.py:190-245 | Anywhere in one history, two accepted completions of a task are the same request, with the same conversation, messages, metadata, evaluation, attempt and runner, and at the end the row holds them. |
| StorageHistory.ConversationsAgree | apps/storage/src/gpt_trace_storage/repository.py:158-245 | The first non-empty conversation accepted for an attempt is that of every later conversation and completion accepted for it, also when the row has completed. |
| StorageHistory.FailuresAgree | apps/storage/src/gpt_trace_storage/repository.py:248-276 | Two accepted failures of an attempt report the same error, unless the first found it completed. |
| StorageHistory.StartsAgree | apps/storage/src/gpt_trace_storage/repository.py:65-155 | All accepted starts of an attempt carry the same runner, contract, provenance, dataset and effective logical id. |
| StorageHistory.OutcomeIsOne | apps/storage/src/gpt_trace_storage/repository.py:190-276 | Beside an accepted completion of an attempt, earlier or later, an accepted failure of it has changed nothing. |
| StorageClient.Client.Call | apps/runner/src/gpt_trace_runner/storage_client.py:41-58 | At most two deliveries, the second only after a lost request or reply: the database is as if the request had arrived once or never, and a returned row or a reported conflict is the verdict of that one arrival. |
| StorageClient.Client.Get | apps/runner/src/gpt_trace_runner/storage_client.py:72-83 | What is read is the row of the task, or that there is none. |
| Journal.JournalStore.Write | apps/runner/src/gpt_trace_runner/journal.py:57-73 | A journal write that fails or dies leaves the old entry or the whole new one. |
| Journal.JournalStore.Clear | apps/runner/src/gpt_trace_runner/journal.py:83-87 | A clear that fails or dies leaves the old entry or none. |
| Journal.JournalStore.WriteCapture | apps/runner/src/gpt_trace_runner/journal.py:93-109 | The capture file is replaced as a whole, and the digest returned is that of the file with its attempt identity. |
| Journal.JournalStore.LoadCapture | apps/runner/src/gpt_trace_runner/journal.py:111-126 | A capture is returned only when it has the digest and the identity the journal recorded; in a run without faults whenever it has. |
| Journal.JournalStore.Load | apps/runner/src/gpt_trace_runner/journal.py:48-55 | What is loaded is the entry written last. |
| Journal.JournalStore.ClearCapture | apps/runner/src/gpt_trace_runner/journal.py:128-131 | A clear leaves the capture as it was or gone. |
| Site.Machines.Prepare | apps/runner/src/gpt_trace_runner/app_lifecycle.py:321-396 | A preparation that fails over a new VM of the default image undertakes to destroy it, unless it was cancelled, and keeps a VM made from a template or already there; without faults it succeeds except over an existing VM of the default image. |
| Site.Machines.Destroy | apps/runner/src/gpt_trace_runner/app_lifecycle.py:447-483 | A reset returns normally only when the VM is gone, and touches no other VM. |
| Site.Machines.Discover | apps/runner/src/gpt_trace_runner/app_lifecycle.py:398-434 | A resume is confirmed only when the VM of the attempt is there, and without faults whenever it is. |
| Site.Teacher.ClickSend | apps/runner/src/gpt_trace_runner/chatgpt.py:698-698 | The click sends the prompt once or, when it raises, once or not at all; the message it becomes has an id that no other prompt has. |
| Site.Teacher.ConversationId | apps/runner/src/gpt_trace_runner/chatgpt.py:701-792 | Only a durable id is returned, of a conversation that holds the posted user message and no other. |
| Site.Teacher.Recover | apps/runner/src/gpt_trace_runner/chatgpt.py:1398-1448 | A recovered transcript is under a durable id, the given one if that is durable, and only of a conversation that holds the posted user message and no other. |
| Site.Teacher.Snapshot | apps/runner/src/gpt_trace_runner/chatgpt.py:1042-1050 | A snapshot is accepted only of a conversation that holds the posted user message and no other. |
| Conversation.SpelledIsRead | apps/runner/src/gpt_trace_runner/conversation.py:93-97 | Unquoting reads an id back from every spelling that quotes some of its characters, of all of Unicode, as UTF-8 in digits of either case. |
| Conversation.SpellingDoesNotMatter | apps/runner/src/gpt_trace_runner/conversation.py:93-97 | Quoted or not, an id is transient exactly when, stripped and without regard to case, it is a frontend-local handle, or when it is blank as written. |
| Conversation.PlainIdIsDurable | apps/runner/src/gpt_trace_runner/conversation.py:93-97 | There are durable ids of every length, so a fresh one can always be handed out. |
| Conversation.StripIs | apps/runner/src/gpt_trace_runner/conversation.py:93-97 | Stripping takes the spaces at both ends and nothing else. |
| Conversation.PlainTextStays | apps/runner/src/gpt_trace_runner/conversation.py:93-97 | A text in which no percent sign is followed by two hexadecimal digits is left as it is. |
| Conversation.HandlesAreLocal | apps/runner/src/gpt_trace_runner/conversation.py:93-97 | A frontend-local handle of either kind is recognised in any case, between any spaces and whatever follows it. |
| Conversation.OthersAreNotLocal | apps/runner/src/gpt_trace_runner/conversation.py:93-97 | An id that begins with neither letter of the handles is not one of them. |
| Protocol.WriteKeepsInv | apps/runner/src/gpt_trace_runner/journal.py:57-66 | A journal write of the same attempt, to a phase whose predecessor was written, and to a later phase or before Send, keeps the whole protocol invariant. |
| Protocol.ClearKeepsInv | apps/runner/src/gpt_trace_runner/journal.py:83-87 | The journal may go only when the row has left running and the VM is gone; then the invariant holds without it. |
| Protocol.RequestKeepsInv | apps/storage/src/gpt_trace_storage/repository.py:65-276 | Each of the four storage requests made at its journal phase keeps the invariant and every completed row. |
| Protocol.RequestEffect | apps/storage/src/gpt_trace_storage/repository.py:65-276 | A request of the attempt changes at most the row of its task, to the status the request asks for. |
| Protocol.DestroyKeepsInv | apps/runner/src/gpt_trace_runner/app_lifecycle.py:447-483 | Destroying the attempt VM keeps the invariant once the attempt no longer needs the VM. |
| Protocol.SendKeepsInv | apps/runner/src/gpt_trace_runner/chatgpt.py:692-698 | A click on Send at the journal phase submission_started, by an attempt not sent before, keeps the invariant: sent once, on record in the journal, and under a message id no other prompt has. |
| Protocol.SentIsPrepared | apps/runner/src/gpt_trace_runner/runner.py:513-552 | No prompt goes out before its attempt has passed every journal phase up to submission_started, under hooks the two benchmark phases among them, with the preparation between them done. |
| Protocol.KnownIsFree | apps/runner/src/gpt_trace_runner/chatgpt.py:701-719 | The conversation of a conversation_known journal holds the prompt of its attempt, so no row of another task has it: the unique index can never refuse it. |
| Protocol.ThreadsKeepInv | apps/runner/src/gpt_trace_runner/chatgpt.py:786-792 | Conversations opened by the backend at any time keep the invariant. |
| Protocol.GradeKeepsInv | apps/runner/src/gpt_trace_runner/runner.py:162-180 | Grading the checkpointed candidate keeps the invariant that all grades of an attempt are of one candidate and one transcript. |
| Protocol.JudgeKeepsInv | apps/runner/src/gpt_trace_runner/runner.py:162-180 | A verdict returned while the row is running keeps the invariant, which says that every completed row holds the last verdict of its attempt and the transcript it was given for. |
| Protocol.PrepareKeepsInv | apps/runner/src/gpt_trace_runner/runner.py:527-534 | The preparation by runtime hooks, made while the journal stands at benchmark_preparing, keeps the invariant. |
| Protocol.CompletedHoldsVerdict | apps/runner/src/gpt_trace_runner/runner.py:162-180 | In every state inside the invariant a completed row holds the last verdict an evaluation of its attempt returned, with the conversation, messages and metadata that were judged; under hooks that verdict is of the sealed candidate on the checkpointed transcript. |
| Protocol.CaptureKeepsInv | apps/runner/src/gpt_trace_runner/journal.py:93-109 | The capture file may be replaced or removed exactly while no checkpoint of the journal names it; under a checkpoint any other file breaks the invariant. |
| Protocol.OverwriteKeepsInv | apps/runner/src/gpt_trace_runner/runner.py:483-494 | Writing a new attempt over the entry of another one keeps the invariant exactly when that entry could be cleared: its row has left running and its VM is gone. |
| Effects.Hands.Request | apps/runner/src/gpt_trace_runner/storage_client.py:41-58 | A request of the attempt under faults: no effect or the specified one, a conflict means no effect, and without faults the reply is the verdict. |
| Effects.Hands.Evaluate | apps/runner/src/gpt_trace_runner/runner.py:162-180 | What the evaluator returns is the last verdict of the attempt on record; an evaluator that raises records none. |
| Effects.Hands.PrepareBenchmark | apps/runner/src/gpt_trace_runner/runner.py:527-534 | A preparation that returns is on record; one that raises leaves no trace. |
| Requests.StartRow | apps/runner/src/gpt_trace_runner/runner.py:503-510 | Without faults the attempt row starts exactly when there is no row yet, or a failed previous attempt with the same logical id; it bears the dataset and the logical id asked for. |
| Requests.AssignConversation | apps/runner/src/gpt_trace_runner/runner.py:596-601 | The row gets the conversation of the journal; without faults always. |
| Requests.CompleteRow | apps/runner/src/gpt_trace_runner/runner.py:617-617 | The row ends completed with exactly the conversation, messages and metadata of the capture and the evaluation given, which must be the last verdict on that capture; without faults always. |
| Requests.FailRow | apps/runner/src/gpt_trace_runner/runner.py:96-103 | The running row of the attempt ends failed with the error given; without faults always. |
| Runner.BenchmarkRunner.RunTask | apps/runner/src/gpt_trace_runner/runner.py:459-495 | With a crash or error at any step, and over no journal or one that could be cleared: at most one prompt goes out, for the next attempt only, and no row of another task changes; a normal return completes that attempt with exactly one prompt, the contract, logical id and dataset asked for, the last verdict of the evaluation and a journal that went through cleanup_pending and is gone, or finds the task finished and changes nothing; without faults it returns exactly when the stored row allows a run, and otherwise changes nothing but the journal, which it leaves or clears. |
| Runner.BenchmarkRunner.RunAttempt | apps/runner/src/gpt_trace_runner/runner.py:497-643 | One attempt, new or resumed by hooks, keeps the invariant under faults in its body and in its exception handler; a normal return means completed, sent once, journal gone; a refused start leaves no journal; a cancelled attempt is not failed but left to recovery; an error outside of storage before the composer is dirty never leaves the attempt open, unless the handler fails too. |
| Runner.BenchmarkRunner.StartAttempt | apps/runner/src/gpt_trace_runner/runner.py:500-549 | Up to the dirty composer nothing is sent; a return leaves the row running, the VM up and the journal at composer_dirty; a refused start has changed nothing, an error outside of storage means the row was started, and a started attempt stays open. |
| Runner.BenchmarkRunner.Submit | apps/runner/src/gpt_trace_runner/chatgpt.py:975-1029 | At most one click; a return means exactly one, with the journal at submission_started naming the message the prompt became, and a durable conversation that holds it; an error before the click leaves an open, unsent attempt. |
| Runner.BenchmarkRunner.ClickSend | apps/runner/src/gpt_trace_runner/chatgpt.py:681-698 | The click happens only after the journal stands at submission_started. |
| Runner.BenchmarkRunner.EvaluateCapture | apps/runner/src/gpt_trace_runner/runner.py:162-180 | Evaluation checkpoints the conversation, then the candidate, and grades only a checkpointed candidate; what it returns is the last verdict on this capture; it touches no row, VM or prompt and leaves the attempt ready to complete. |
| Runner.BenchmarkRunner.CheckpointBoth | apps/runner/src/gpt_trace_runner/runner.py:170-179 | A resumed evaluation writes only the checkpoints that are missing and ends at a checkpointed candidate. |
| Runner.BenchmarkRunner.CheckpointConversation | apps/runner/src/gpt_trace_runner/runner.py:170-174 | The capture file is written before the journal names its digest. |
| Runner.BenchmarkRunner.CheckpointCandidate | apps/runner/src/gpt_trace_runner/runner.py:176-179 | The candidate is written to the journal before anything is graded. |
| Runner.BenchmarkRunner.Grade | apps/runner/src/gpt_trace_runner/runner.py:180-180 | Grading moves nothing but the evaluator field of the journal and the records of grades and verdicts, and returns the verdict it recorded. |
| Runner.BenchmarkRunner.RecordEvaluator | apps/runner/src/gpt_trace_runner/journal.py:75-81 | Recording an evaluator changes that one field of a checkpointed journal and nothing else. |
| Runner.BenchmarkRunner.Deliver | apps/runner/src/gpt_trace_runner/runner.py:255-279 | The row completes with exactly the capture and the verdict its evaluation returned before the VM and, last, the journal go. |
| Runner.BenchmarkRunner.TakeDown | apps/runner/src/gpt_trace_runner/runner.py:619-634 | The journal says cleanup_pending, which stays on record, the VM goes, the journal goes last; no row changes. |
| Runner.BenchmarkRunner.Finish | apps/runner/src/gpt_trace_runner/runner.py:263-278 | The completed row stays; VM, journal and capture go. |
| Runner.Remove | apps/runner/src/gpt_trace_runner/runner.py:105-111 | The VM goes before the journal and the journal before the capture, and no row changes. |
| Runner.BenchmarkRunner.BringUp | apps/runner/src/gpt_trace_runner/runner.py:502-515 | The row is started before the VM is prepared; a resumed attempt finds its VM; a conflict before the row exists has changed nothing. |
| Runner.StartRowAndVm | apps/runner/src/gpt_trace_runner/runner.py:502-512 | A new attempt gets its row and then its VM; without faults exactly when the row may start, and a conflict has changed nothing. |
| Runner.BenchmarkRunner.PrepareBenchmark | apps/runner/src/gpt_trace_runner/runner.py:527-534 | Under hooks the benchmark is prepared between two journal phases, without them the phase stays; a return leaves the attempt ready for composer_dirty, and no row changes. |
| Runner.BenchmarkRunner.Dress | apps/runner/src/gpt_trace_runner/runner.py:516-549 | The attempt stays open and unsent, and ends with the journal at composer_dirty. |
| Runner.BenchmarkRunner.NameMessage | apps/runner/src/gpt_trace_runner/chatgpt.py:1008-1009 | The journal names the message the prompt became and stays at submission_started. |
| Runner.BenchmarkRunner.Identify | apps/runner/src/gpt_trace_runner/chatgpt.py:1002-1021 | The message id is journaled, and the conversation returned is a durable one that holds that message; without faults always. |
| Runner.BenchmarkRunner.Know | apps/runner/src/gpt_trace_runner/runner.py:583-595 | The journal moves to conversation_known with the durable conversation and the user message; no row changes. |
| Runner.BenchmarkRunner.Converse | apps/runner/src/gpt_trace_runner/runner.py:596-634 | The conversation is on the row before it is awaited; a return means completed with the last verdict; without faults always. |
| Runner.BenchmarkRunner.AssignAndDeliver | apps/runner/src/gpt_trace_runner/runner.py:243-279 | A recovered conversation is assigned and completes the row with its capture and the verdict on it; without faults always. |
| Runner.BenchmarkRunner.AttemptBody | apps/runner/src/gpt_trace_runner/runner.py:501-635 | What the exception handler can rely on: before Send the attempt is open and unsent, and a conflict before the row exists has changed nothing. |
| Runner.BenchmarkRunner.CloseAttempt | apps/runner/src/gpt_trace_runner/runner.py:636-643 | An attempt that raised before Send loses its VM, fails its row, and only then loses its journal. |
| Runner.RowIsIdle | apps/runner/src/gpt_trace_runner/runner.py:459-495 | Without a journal, or under one that could be cleared, the stored row of a task is failed or completed and no VM is alive. |
| Recovery.ReconcileJournal | apps/runner/src/gpt_trace_runner/runner.py:281-443 | From any reachable crash state, with or without hooks and under further faults: a normal return leaves no journal and resolves the attempt (over attempts stay, unsent ones fail or are resumed by hooks, sent ones complete with the last verdict), and no row of another task changes. Without further faults it returns exactly from the recoverable states, and otherwise raises with the journal unchanged. |
| Recovery.NamesDecide | apps/runner/src/gpt_trace_runner/runner.py:216-225 | Checking the UI names of the stored row against the journal refuses no attempt that is otherwise recoverable. |
| Recovery.JournalAndRow | apps/runner/src/gpt_trace_runner/runner.py:301-366 | The row a journal finds is missing, the failed previous attempt, or the attempt of the journal itself. |
| Recovery.TakeDownRemains | apps/runner/src/gpt_trace_runner/runner.py:301-319 | An attempt that is over loses its VM, then its journal, and keeps its row. |
| Recovery.CloseUnsubmitted | apps/runner/src/gpt_trace_runner/runner.py:347-366 | Without hooks an unsent attempt is closed exactly when there is no row or its own running row, which fails. |
| Recovery.ResumeCheckpoint | apps/runner/src/gpt_trace_runner/runner.py:330-345 | A checkpointed attempt completes with exactly the checkpointed transcript and the verdict on it, without the teacher. |
| Recovery.ResolveUnsubmitted | apps/runner/src/gpt_trace_runner/runner.py:321-366 | Before Send: hooks resume a matching running attempt, everything else is closed, and the refused states are exactly the stuck ones. |
| Recovery.ResolveSubmitted | apps/runner/src/gpt_trace_runner/runner.py:368-443 | After Send nothing is sent again; the attempt completes from what the journal proves, and the refused states are exactly the stuck ones. |
| Recovery.CompleteRecovery | apps/runner/src/gpt_trace_runner/runner.py:227-279 | A known conversation is read back and completes the row; without faults always. |
| Recovery.RecoverCandidate | apps/runner/src/gpt_trace_runner/runner.py:387-443 | A submission of which only the user message is known is found again and completes the row; without faults always. |
| Recovery.FailAndClear | apps/runner/src/gpt_trace_runner/runner.py:352-365 | The open row fails before the journal goes. |
| Recovery.Resolve | apps/runner/src/gpt_trace_runner/runner.py:301-443 | Whatever branch the row and the phase select, a return resolves the attempt, and without further faults it returns exactly outside of the stuck states. |
| Crashes.LeadsInside | apps/runner/src/gpt_trace_runner/runner.py:281-443 | Every state that guarded effects lead to, from nothing, is inside the invariant. |
| Crashes.UnnamedSubmission | apps/runner/src/gpt_trace_runner/runner.py:387-391 | Refused: the prompt went out, and the process died before the journal named its message. |
| Crashes.OverFailed | apps/runner/src/gpt_trace_runner/runner.py:321-366 | Refused: the first attempt failed and was closed, and the process died after it journaled the second. |
| Crashes.HookedWithoutRow | apps/runner/src/gpt_trace_runner/runner.py:321-345 | Refused under hooks: the process died between the journal and the row. |
| Crashes.HookedWithVm | apps/workstation-broker/src/workstation_broker/server.py:279-294 | Refused under hooks: the process died after the VM of the default image was created, which is not created twice. |
| Sessions.AbandonRecovery | apps/runner/src/gpt_trace_runner/runner.py:48-112 | Giving up fails the row first and clears the journal last; without faults it succeeds exactly for a matching journal over its own running row, and otherwise changes nothing. |
| Sessions.OnlyDeadEndsRemain | apps/runner/src/gpt_trace_runner/runner.py:48-112 | The stuck states that giving up does not end are exactly: starting over the failed previous attempt, and starting under hooks without a row. |
| Sessions.NothingIsLeft | apps/runner/src/gpt_trace_runner/runner.py:281-443 | Without a journal no VM lives, no row is running, and every prompt ever sent was sent once and belongs to an attempt that is over. |
| Sessions.GradesAgree | apps/runner/src/gpt_trace_runner/runner.py:162-180 | Over any history, all evaluations of an attempt grade the same candidate and transcript, and if it completes, it is with exactly that transcript. |
| Sessions.VerdictStays | apps/runner/src/gpt_trace_runner/runner.py:255-279 | Over any history, a row once completed stays as it is, its evaluation is the verdict returned for its transcript, and no later evaluation replaces that verdict. |
| Sessions.CheckpointStays | apps/runner/src/gpt_trace_runner/runner.py:330-345 | A checkpointed journal matches the capture file, and every evaluation at any later time uses that capture and, once it is recorded, that candidate. |
| Sessions.AGradedAttempt | apps/runner/src/gpt_trace_runner/runner.py:176-180 | The invariant leaves room for a graded attempt whose journal stands at the checkpointed candidate, so the statements about grades are not empty. |
| Sessions.Operate | apps/runner/src/gpt_trace_runner/superbench/lifecycle.py:238-341 | For every sequence of start, resume and reset commands, each failing or dying anywhere: the invariant holds after each, no row loses its identity, an attempt or its completion and nothing sent, sealed or graded is ever taken back, control state agrees with storage, and each attempt was sent at most once with its journal at submission_started or later while it is open. |
| Sessions.StartRun | apps/runner/src/gpt_trace_runner/superbench/lifecycle.py:298-341 | A new run is refused, with nothing changed, while one is unfinished, for an empty selection and for a task outside of the catalog; a run that was created has the id and selection asked for and is frozen to the current campaign, model, configuration and plan; a normal return leaves it paused or completed; without faults it returns whenever nothing stored stands in the way. |
| Sessions.Admit | apps/runner/src/gpt_trace_runner/superbench/lifecycle.py:252-296 | A resume is answered with a rate limit exactly for an unfinished run whose deferred time is to come, and goes on exactly for an unfinished run that is due and still frozen to the current plan. |
| Sessions.PatienceEnds | apps/runner/src/gpt_trace_runner/superbench/run_control.py:173-203 | After a deferral a resume is put off exactly while the new time or an earlier one is to come. |
| Sessions.ResumeRun | apps/runner/src/gpt_trace_runner/superbench/lifecycle.py:252-296 | A resume is refused, with nothing changed, before the deferred time (as a rate limit) and when the campaign, the model, the configuration or the plan of a selected task drifted; otherwise it continues the frozen selection, never forgets a completed task, and returns only paused or completed; without faults it returns whenever the pending journal and the stored rows allow it. |
| Sessions.Reset | apps/runner/src/gpt_trace_runner/cli.py:432-457 | A reset sends nothing and is refused, with nothing changed, outside of the frozen plan; a normal return means the pending attempt could be given up, and leaves no journal and a stopped run. |
| Sessions.GiveUp | apps/runner/src/gpt_trace_runner/cli.py:446-456 | Between the adapter steps the attempt is given up, only with a matching journal over a running row. |
| RunControl.ApplyKeepsFrozen | apps/runner/src/gpt_trace_runner/superbench/run_control.py:164-368 | Every transition keeps plan, selection and run id; marks are never lost, doubled or outside of the selection; completion needs every selected task marked and proved; a deferral stores the later of the new and the stored time and changes nothing else. |
| RunControl.OnlyResumeActivates | apps/runner/src/gpt_trace_runner/superbench/run_control.py:164-368 | Only the start of a resume makes a stopped run active again. |
| RunControl.StatusAfter | apps/runner/src/gpt_trace_runner/superbench/run_control.py:173-369 | Which transitions lead to which status: a requested pause ends only by being taken, by a new resume, an error or completion, and a run is running only after it was confirmed. |
| RunControl.RefusedBy | apps/runner/src/gpt_trace_runner/superbench/run_control.py:217-369 | Exactly this is refused: to confirm a run that is not active and not asked to pause, to pause one that needs intervention or is finished, to resume a finished one, and to start, mark or complete beyond the selection, its marks and the storage proof. |
| RunHistory.DeferredToTheLatest | apps/runner/src/gpt_trace_runner/superbench/run_control.py:173-188 | After any transitions the stored time is the latest of the deferrals since the run was last confirmed or completed, and there is none without such a deferral. |
| RunHistory.IncidentIsTheLast | apps/runner/src/gpt_trace_runner/superbench/run_control.py:260-369 | After any transitions the incident is the last one reported since the run was last confirmed or completed, and there is none otherwise. |
| RunHistory.MarksAreFinished | apps/runner/src/gpt_trace_runner/superbench/run_control.py:288-306 | After any transitions the marked tasks are exactly the selected ones that were finished. |
| RunHistory.CurrentIsTheLastStarted | apps/runner/src/gpt_trace_runner/superbench/run_control.py:234-306 | After any transitions the current task is the one whose start took effect last, unless it was finished, a pause was taken or the run completed since. |
| RunControl.RunControlStore.Mutate | apps/runner/src/gpt_trace_runner/superbench/run_control.py:69-87 | With pause signals between any two steps, nested to any depth: the lock is never taken while held, no pause is left pending, the run becomes the transition of the stored run (or of it paused); after a signal it is active only if this operation began a resume and the signal came before the transaction was marked. |
| RunControl.RunControlStore.RequestPauseFromSignal | apps/runner/src/gpt_trace_runner/superbench/run_control.py:217-222 | Inside a transaction the handler only notes the pause and leaves the file alone; outside of one the pause is written before it returns. |
| RunControl.RunControlStore.FlushSignalPause | apps/runner/src/gpt_trace_runner/superbench/run_control.py:211-215 | A pending pause is applied and gone; without one the file is untouched. |
| RunControl.RunControlStore.Point | apps/runner/src/gpt_trace_runner/superbench/run_control.py:205-222 | Any number of signals at one point never changes the file inside a transaction and never leaves a pause unapplied outside of one. |
| RunControl.RunControlStore.Enter | apps/runner/src/gpt_trace_runner/superbench/run_control.py:69-79 | The lock is taken once and held at depth one, with the pauses of the meantime in the file or, from the marking on, pending. |
| RunControl.RunControlStore.Exit | apps/runner/src/gpt_trace_runner/superbench/run_control.py:80-87 | The lock is released, the depth is zero, and every pause pending is written before the call returns. |
| Scheduler.Scheduler.RunLoop | apps/runner/src/gpt_trace_runner/superbench/execution.py:359-616 | A loop that returns is paused, or every selected task is marked completed; whatever is marked is completed in storage; without faults it returns whenever the stored rows allow a run of every selected task. |
| Scheduler.Scheduler.Begin | apps/runner/src/gpt_trace_runner/superbench/execution.py:366-372 | Control state names the task before anything is done for it, unless a pause is requested; without faults always for a selected task. |
| Scheduler.Scheduler.RunScheduled | apps/runner/src/gpt_trace_runner/superbench/execution.py:385-487 | A task is done only when it is marked, and marked only when storage has completed it; otherwise the run is paused or the error goes on. Without faults a selected task whose stored row allows a run raises nothing. |
| Scheduler.Scheduler.AfterError | apps/runner/src/gpt_trace_runner/superbench/execution.py:489-592 | An error always goes on. Without further faults no committed completion keeps its journal, except after a rate limit, which leaves everything as it is, and a cancellation by a requested pause, which does so too; an ordinary error then marks the task. No task is marked while a journal is left. |
| Scheduler.Scheduler.CleanUp | apps/runner/src/gpt_trace_runner/superbench/execution.py:534-554 | The committed task is reconciled before it is marked, and marked only then; without further faults no completed task keeps its journal. |
| Scheduler.Scheduler.Attempt | apps/runner/src/gpt_trace_runner/superbench/execution.py:463-592 | A task that returns is completed in storage with no journal left; no error is swallowed; without faults it returns whenever the stored row allows a run, and without faults after an error no committed completion keeps its journal unless the error is a rate limit or a cancellation. |
| Scheduler.Scheduler.RunOne | apps/runner/src/gpt_trace_runner/superbench/execution.py:359-616 | One turn of the loop ends with the task marked and no journal, or with the run paused, or with an error; a task already marked is neither started nor run again; without faults, over a run that goes on and a selected task whose stored row allows a run, there is no error. |
| Scheduler.Scheduler.RecoverPending | apps/runner/src/gpt_trace_runner/superbench/execution.py:328-352 | A journal of another selection is left alone and stops the run; otherwise no journal is left when the tasks begin; without faults one of this selection that can be recovered is, and it takes no stored row out of those that allow a run. |
| Scheduler.Scheduler.EarlyPause | apps/runner/src/gpt_trace_runner/superbench/execution.py:321-324 | A pause asked for before the start is taken. |
| Scheduler.Scheduler.Confirm | apps/runner/src/gpt_trace_runner/superbench/execution.py:353-357 | The run is running, or a pause came first and is taken. |
| Scheduler.Scheduler.RunPending | apps/runner/src/gpt_trace_runner/superbench/execution.py:267-633 | The scheduler returns normally only paused or with every frozen task marked. |
| Scheduler.Scheduler.StorageProof | apps/runner/src/gpt_trace_runner/superbench/lifecycle.py:188-211 | Every selected task is in the proof, and every task in it is completed in storage; without faults there is one whenever they are. |
| Scheduler.Scheduler.Conclude | apps/runner/src/gpt_trace_runner/superbench/lifecycle.py:382-411 | The run ends completed only after the storage proof, and a pause that arrives meanwhile wins. |
| Scheduler.Scheduler.Incident | apps/runner/src/gpt_trace_runner/superbench/lifecycle.py:424-452 | The error goes on; without further faults a run that is not completed stops with an incident, as paused after a rate limit, deferred to exactly the later of the given and the stored time, and as needing intervention after anything else, with the stored time as it was. |
| Scheduler.Scheduler.Control | apps/runner/src/gpt_trace_runner/superbench/run_control.py:164-171 | Every operation of the store keeps the agreement and applies its transition to the stored run or to that run paused. |
| Scheduler.Scheduler.TakePause | apps/runner/src/gpt_trace_runner/superbench/execution.py:362-366 | A requested pause is taken, and a run without one goes on, with the current task as it was. |
| Scheduler.Scheduler.Execute | apps/runner/src/gpt_trace_runner/superbench/lifecycle.py:344-459 | Over a whole execution with faults and signals anywhere, the ids marked completed stay distinct, inside the frozen selection and completed in storage; a completed run has them all; a normal return is paused or completed. Without faults it returns normally whenever a pending journal is of this selection and recoverable and the stored rows allow a run of every selected task; any error but a cancellation leaves the run completed, or stopped with an incident in the status of that error. |
| Scheduler.TransitionKeepsAgree | apps/runner/src/gpt_trace_runner/superbench/run_control.py:288-368 | Every transition, with pauses around it, keeps control state in agreement with storage. |
| Scheduler.PreRunnerFailure | apps/runner/src/gpt_trace_runner/superbench/execution.py:53-80 | Recording a failure before the runner starts keeps the invariant once both of its requests took effect; between them the invariant is broken, with a running row that no journal names and that blocks the start of every other task. |
| Identity.IdentityMaps | apps/runner/src/gpt_trace_runner/superbench/normalize.py:90-138 | An alias stands for exactly the stable names of the manifest tools and used calls that bear it; the last call with an id names it, the last call of a result message links it, and each message lists its calls once. |
| Identity.ResolvesUniquely | apps/runner/src/gpt_trace_runner/superbench/normalize.py:133-138 | An alias of exactly one identity resolves to it in whatever order provenance came; any other alias is left alone. |
| Normalize.IndexCalls | apps/runner/src/gpt_trace_runner/superbench/normalize.py:152-215 | The first pass collects the calls of every message, their names, and the calls listed under each message id. |
| Normalize.FindCalls | apps/runner/src/gpt_trace_runner/superbench/normalize.py:158-202 | The calls of one message, listed or written as code to a recipient, with ids made up where they are missing. |
| Normalize.AddMembers | apps/runner/src/gpt_trace_runner/superbench/normalize.py:210-215 | The calls provenance knows are added to their messages once. |
| Normalize.FindUnderParent | apps/runner/src/gpt_trace_runner/superbench/normalize.py:239-255 | The open call under the parent with the name of the result, or the only open one. |
| Normalize.FindLink | apps/runner/src/gpt_trace_runner/superbench/normalize.py:231-267 | A result is linked by its own link, by provenance, by its parent if one open call fits, or to the latest earlier open call; the rows of Linking say so call by call. |
| Normalize.NormalizeMessages | apps/runner/src/gpt_trace_runner/superbench/normalize.py:141-302 | The loops compute the specified rows from the identity maps. |
| Indexing.MessageShows | apps/runner/src/gpt_trace_runner/superbench/normalize.py:158-202 | A message shows one call for each listed entry that is a call, in order, with its id or a made-up one and its arguments; one for its code to a single recipient if it lists none; and nothing else. Names already known stay. |
| Indexing.IndexHolds | apps/runner/src/gpt_trace_runner/superbench/normalize.py:152-208 | So does every message of a conversation, and an id goes by its provenance name, else by the resolved alias of the message that shows it first. |
| Indexing.UnderIs | apps/runner/src/gpt_trace_runner/superbench/normalize.py:203-215 | Under a message id stand the calls its messages show, as often as they show them, and those provenance adds to it, once. |
| Linking.GuessIs | apps/runner/src/gpt_trace_runner/superbench/normalize.py:239-267 | Without link and provenance a result answers the only open call under its parent with its name, else the only open call there, else the latest open call of an earlier message that fits, else none. |
| Linking.RunRows | apps/runner/src/gpt_trace_runner/superbench/normalize.py:217-302 | Every message but a reasoning summary without text has one row, in order, with its role, kind, title, calls and its text, or summary for a reasoning summary; a result bears the name of its call; open is what no earlier row answers. |
| Linking.ExportedRows | apps/runner/src/gpt_trace_runner/superbench/normalize.py:141-302 | For all conversations and all provenance: the rows are such rows; a result with a link keeps it, one without takes the call of the last provenance entry that names it, and only one without either is guessed. |
| Validator.CheckNames | apps/runner/src/gpt_trace_runner/superbench/exporter.py:170-175 | Accepts exactly non-empty, pairwise distinct names. |
| Validator.CheckCalls | apps/runner/src/gpt_trace_runner/superbench/exporter.py:180-191 | The calls of a message are recorded with their place, or the row is not acceptable. |
| Validator.CheckResult | apps/runner/src/gpt_trace_runner/superbench/exporter.py:193-214 | A result consumes one earlier open call of the right name, or the row is not acceptable. |
| Validator.Validate | apps/runner/src/gpt_trace_runner/superbench/exporter.py:168-218 | Sound and complete: accepts exactly when names are declared once, call ids are non-empty, distinct and declared, and results pair off one to one with calls, each result later than its call and unnamed or named alike. |
| Export.AcceptedIsBalanced | apps/runner/src/gpt_trace_runner/superbench/exporter.py:168-218 | In an accepted row every result is preceded by more calls than results, and both are equally many. |
| Export.NormalizedRowIsAccepted | apps/runner/src/gpt_trace_runner/superbench/normalize.py:141-302 | A plain row without call provenance, whose results may bear names that change no link, is accepted after normalization exactly when its call ids are distinct, its call names declared, calls and results balance in the raw messages, and no result names as its parent a message at or after it that makes exactly one call. |
| Export.LoneForwardParentIsRefused | apps/runner/src/gpt_trace_runner/superbench/normalize.py:239-255 | A plain row without call provenance that is usable and balanced is refused as soon as one result has as its parent a message at or after it with exactly one call. |
| Export.DistinctIdsArePlain | apps/runner/src/gpt_trace_runner/superbench/normalize.py:239-255 | Rows whose messages have distinct ids, whose results carry no link and no name that changes one, and that drop no calls, are plain. |
| Export.OneNameIsHarmless | apps/runner/src/gpt_trace_runner/superbench/normalize.py:239-267 | A missing name changes no link, and in a row whose calls all bear one name neither does any name that resolves to it. |
| Export.ForwardParentIsRefused | apps/runner/src/gpt_trace_runner/superbench/normalize.py:239-255 | One balanced and usable row that is refused: its first result names a later message with one call. |
| Export.ToolNames | apps/runner/src/gpt_trace_runner/superbench/normalize.py:305-337 | The declared names are the stable names of the tools of the manifest, in its order and with its repetitions. |
| Export.ManifestNameIsDeclared | apps/runner/src/gpt_trace_runner/superbench/normalize.py:305-337 | A call under the name of exactly one manifest tool resolves to a declared name. |
| Export.ExportRow | apps/runner/src/gpt_trace_runner/superbench/exporter.py:88-118 | The names are those of the manifest in order; the exported row is accepted exactly when it is well structured under them, and for plain rows exactly under the condition on the raw messages. |
| Provenance.Create | apps/runner/src/gpt_trace_runner/provenance.py:239-279 | The calls an assistant message makes, with the ids they are given; Invocations.CallsOfMessage says which. |
| Provenance.FindCall | apps/runner/src/gpt_trace_runner/provenance.py:295-311 | An observation goes to the latest open compatible call its link names, and failing that to the latest open compatible call. |
| Provenance.Forget | apps/runner/src/gpt_trace_runner/provenance.py:328-331 | Removal is by value: the first open call equal to the answered one goes, or nothing. |
| Provenance.LearnOwn | apps/runner/src/gpt_trace_runner/provenance.py:287-291 | An assistant message adds what it says to its own compatible calls and to no others. |
| Provenance.Attach | apps/runner/src/gpt_trace_runner/provenance.py:295-331 | The observation fills in the chosen call and changes no other, or becomes a call of its own when none is open. |
| Provenance.InvokedToolCalls | apps/runner/src/gpt_trace_runner/provenance.py:213-333 | The list is the state after all messages, of which the next rows speak. |
| Provenance.RunIsJoined | apps/runner/src/gpt_trace_runner/provenance.py:213-333 | After any number of messages: every call made so far is listed once, every observation put in has no other call, each result message answers exactly one call, which came before it, and exactly the answered calls have a result. |
| Provenance.NothingIsOverwritten | apps/runner/src/gpt_trace_runner/provenance.py:213-333 | Between any two moments of the loop no call disappears and no field once set is ever overwritten. |
| Provenance.ObservationGoes | apps/runner/src/gpt_trace_runner/provenance.py:293-331 | An observation becomes a call of its own exactly when none was chosen for it, and a result is, at the end, the answer of the call chosen when it came and of no other. |
| Provenance.ResultsDiffer | apps/runner/src/gpt_trace_runner/provenance.py:213-333 | With distinct non-empty message ids no two calls have the same result. |
| Invocations.CallsOfMessage | apps/runner/src/gpt_trace_runner/provenance.py:231-284 | At the end each entry of an assistant message that is a call has exactly one listed call, in order, with its id or a made-up one, the message id and whatever its identity said; an assistant message without any, to one recipient, has exactly one, with what that recipient resolves to; any other message has none. |
| Invocations.CompatibleAgrees | apps/runner/src/gpt_trace_runner/provenance.py:184-210 | A call is compatible with an observation exactly when after learning from it they agree and its own recipient does not name another tool. |
| Invocations.ObservationIsLearned | apps/runner/src/gpt_trace_runner/provenance.py:293-331 | What a message without calls tells about a tool ends up, whatever comes later, on the one call chosen for it, which never names another App or tool, leaves no field open that was told, and holds the result. |
| Invocations.OwnIsLearned | apps/runner/src/gpt_trace_runner/provenance.py:287-291 | What an assistant message with calls tells is learned for good by each of its calls that it does not contradict. |
| Invocations.LinkDecides | apps/runner/src/gpt_trace_runner/provenance.py:295-311 | An observation goes to the latest waiting call that its link names and that is compatible, failing that to the latest compatible waiting call, and to a call of its own only if there is none. |
| Invocations.OpenCallsWait | apps/runner/src/gpt_trace_runner/provenance.py:281-331 | While every result has an id, the waiting calls are exactly the calls of messages without a result. |
| Invocations.OneCallLearns | apps/runner/src/gpt_trace_runner/provenance.py:287-331 | A message changes no earlier call but the one its observation goes to. |
| Invocations.CallsPutIn | apps/runner/src/gpt_trace_runner/provenance.py:313-330 | A call put in for an observation is at the end what the observation made it: its id the link, the message id or a made-up one, its identity that of the observation, its result the message if it is a result. |
| Provenance.InfrastructureIncidents | apps/runner/src/gpt_trace_runner/provenance.py:336-366 | The incidents are those of the list in order. |
| Provenance.IncidentsAreUnanswered | apps/runner/src/gpt_trace_runner/provenance.py:336-366 | Incidents correspond one to one, in order, to the resolved calls with a call message and no result. |
| Provenance.IncidentsAreCalls | apps/runner/src/gpt_trace_runner/provenance.py:336-366 | An incident that is a call of a message is a call of an assistant message that no result answered. |
| Provenance.IncidentsOutsideCalls | apps/runner/src/gpt_trace_runner/provenance.py:336-366 | Some incident is not a call of an assistant message exactly when an observation that is not a result, makes no call, resolves to a tool and carries a link comes while no waiting call is compatible with it. |
| Provenance.EchoBecomesAnIncident | apps/runner/src/gpt_trace_runner/provenance.py:339-344 | Such an incident: one unmatched observation alone, with App, tool and runtime name, joined and classified. |
| Workspace.TakeSnapshot | apps/runner/src/gpt_trace_runner/workspace_seed.py:51-86 | Hashes the specified byte string and counts files and bytes, and refuses exactly the workspaces over the limit. |
| Workspace.Update | apps/runner/src/gpt_trace_runner/workspace_seed.py:61-85 | The updates of the digest for one entry add exactly its bytes. |
| Workspace.EntryIsFields | apps/runner/src/gpt_trace_runner/workspace_seed.py:61-85 | The bytes of an entry are its fields, each closed by NUL: the kind, the path, and for a file whether it is executable, the size in decimal and the contents; no workspace is the one field "empty". |
| Workspace.CountsAdd | apps/runner/src/gpt_trace_runner/workspace_seed.py:70-86 | The counts of files and bytes add up over the entries: a file counts once with its size, a directory not at all. |
| Workspace.EntryIsRead | apps/runner/src/gpt_trace_runner/workspace_seed.py:61-85 | The bytes of one entry never begin the bytes of another. |
| Workspace.DigestIdentifiesWorkspace | apps/runner/src/gpt_trace_runner/workspace_seed.py:51-86 | Under an ideal hash two workspaces with NUL-free paths have the same digest only if they are equal, and none, not even an empty one, has the digest of "no workspace". |
| Workspace.NulInPathCollides | apps/runner/src/gpt_trace_runner/workspace_seed.py:65-69 | The condition on paths is needed: with a NUL in a path two workspaces collide. |
| Sse.ParseSse | apps/runner/src/gpt_trace_runner/stream.py:74-110 | The loop computes the specified events. |
| Sse.PrintedIsParsed | apps/runner/src/gpt_trace_runner/stream.py:74-110 | Printing any events (names without line breaks, data without carriage returns) and parsing the text gives them back. |
| Sse.SplittingAtABlankLine | apps/runner/src/gpt_trace_runner/stream.py:74-110 | For all texts, parsing around a blank line is parsing both sides, also when the first side ends in a carriage return. |
| Sse.LastBlockIsEmitted | apps/runner/src/gpt_trace_runner/stream.py:108-110 | An unterminated last block is emitted, unlike after section 9.2.6 of the HTML Standard. |
| Sse.OtherLinesAreIgnored | apps/runner/src/gpt_trace_runner/stream.py:96-105 | A comment or a field of another name, wherever it stands in a text, changes no event. |
| Sse.SpellingDoesNotMatter | apps/runner/src/gpt_trace_runner/stream.py:98-105 | A field means the same with or without a space after its colon, and one without a colon is an empty one. |
| Keyboard.CharacterIsRead | apps/workstation-broker/src/workstation_broker/computer.py:67-91 | A US keyboard with Unicode hex entry that receives the events of an accepted character has typed that character, with no key held. |
| Keyboard.AcceptedCharacters | apps/workstation-broker/src/workstation_broker/computer.py:67-91 | Accepted are tab, newline, the printable ASCII characters and every code point from 128 up. |
| Keyboard.HexIsRead | apps/workstation-broker/src/workstation_broker/computer.py:87-88 | The hex digits of a code point read back as that code point. |
| Keyboard.TypeText | apps/workstation-broker/src/workstation_broker/computer.py:125-130 | A text is typed up to its first refused character, with no key held. |
| Keyboard.ChordIsReleased | apps/workstation-broker/src/workstation_broker/computer.py:139-140 | A chord holds exactly its keys when complete and none at its end, also when a key occurs twice. |
| Keyboard.ChordIsNamed | apps/workstation-broker/src/workstation_broker/computer.py:133-135 | Joined by plus signs, any names without one are read back as the same keys. |
| Keyboard.KeysInAnyCase | apps/workstation-broker/src/workstation_broker/computer.py:133-138 | In any case a label names its key, any other code its own, a letter or digit itself, and any other plain name nothing. |
| Keyboard.SendKeys | apps/workstation-broker/src/workstation_broker/computer.py:131-142 | The parts of the text between plus signs are looked up by label, code, letter or digit in any case, and one that is none of these refuses the event; chords press in order and release in reverse order, leaving nothing held; key_down and key_up hold and release exactly the named keys. |
| Shell.Drain | apps/kali-workstation/src/kali_workstation/guest/shell.py:58-65 | Keeps exactly the first bytes up to the limit and flags truncation exactly when more arrived. |
| Shell.Terminal.Collect | apps/kali-workstation/src/kali_workstation/guest/shell.py:107-120 | The buffer is the last bytes of what was buffered and what arrived, within the limit, and the rest is counted as dropped. |
| Shell.Terminal.Read | apps/kali-workstation/src/kali_workstation/guest/shell.py:127-133 | A read takes the first bytes of the buffer, and bytes read, dropped and buffered add up to the bytes received. |
| Shell.CoveredOrSkipped | apps/kali-workstation/src/kali_workstation/guest/shell.py:107-133 | The pieces read and the gaps between them make up the stream. |
| Shell.PiecesAreDisjoint | apps/kali-workstation/src/kali_workstation/guest/shell.py:127-133 | Reads are pieces of the stream in order, without overlap. |
| Shell.Session | apps/kali-workstation/src/kali_workstation/guest/shell.py:107-133 | After any interleaving of collects and reads the bytes read, dropped and buffered add up to the bytes written. |
| Transfer.Guest.Begin | apps/kali-workstation/src/kali_workstation/guest/files.py:60-83 | A session begins, empty for its path and hash, exactly when none is open, the name is not empty and stands for a place, and a file there may be overwritten; without write faults always then. |
| Transfer.Guest.Chunk | apps/kali-workstation/src/kali_workstation/guest/files.py:85-95 | A chunk is appended whole exactly within the limits of an open session; otherwise an error, with the hash and the size as they were; the target is not touched. |
| Transfer.Guest.Finish | apps/kali-workstation/src/kali_workstation/guest/files.py:97-115 | The target is replaced, exactly when the session is open and hash, size and leave to overwrite fit, and by exactly the announced bytes unless a write had failed; the session is idle afterwards in every case. |
| Transfer.Guest.Stat | apps/kali-workstation/src/kali_workstation/guest/files.py:27-31 | The size of a readable file within the limit. |
| Transfer.Guest.ReadChunk | apps/kali-workstation/src/kali_workstation/guest/files.py:34-46 | The next slice of a readable file, empty at its end; an offset beyond the file limit is refused. |
| Transfer.Broker.StageBegin | apps/workstation-broker/src/workstation_broker/server.py:655-661 | An upload begins empty under an id not in use. |
| Transfer.Broker.StageAbort | apps/workstation-broker/src/workstation_broker/server.py:663-668 | Only this upload goes. |
| Transfer.Broker.ArtifactChunk | apps/workstation-broker/src/workstation_broker/server.py:737-748 | The slice, size and name of a stored artifact, exactly when it is there and within the limit. |
| Transfer.Broker.Send | apps/workstation-broker/src/workstation_broker/server.py:758-763 | The chunks sent make up the artifact, and the target changes only to it. |
| Transfer.Broker.StageChunk | apps/workstation-broker/src/workstation_broker/server.py:670-683 | Accepts a chunk exactly within the chunk and the transfer limit, and appends it. |
| Transfer.Broker.StageEnd | apps/workstation-broker/src/workstation_broker/server.py:685-702 | Stores the upload under its own hash exactly when size and hash are as announced. |
| Transfer.Broker.ExportArtifact | apps/workstation-broker/src/workstation_broker/server.py:704-735 | Whatever the guest does meanwhile, what is stored is named by its own hash and has the size reported; if the file does not change, it is the file. |
| Transfer.Broker.ImportArtifact | apps/workstation-broker/src/workstation_broker/server.py:750-767 | The target holds its old contents or exactly the artifact; a failed import without lost messages leaves it untouched and an idle session idle. |
| Transfer.Provider.Stage | apps/runner/src/gpt_trace_runner/workstation_provider.py:193-200 | The upload becomes an artifact named by the hash of the data exactly within the broker limit. |
| Transfer.Provider.ImportBytes | apps/runner/src/gpt_trace_runner/workstation_provider.py:184-207 | Without faults it succeeds exactly for data within all three limits and a path the guest reports unchanged; then the file holds exactly the data. A path the guest reports differently is refused after the file was replaced. |
| Transfer.Provider.Download | apps/runner/src/gpt_trace_runner/workstation_provider.py:151-182 | What is returned has the announced size and hash, and the loop ends because each accepted chunk is non-empty. |
| Transfer.Provider.Export | apps/runner/src/gpt_trace_runner/workstation_provider.py:151-182 | What is returned is stored under its own hash, and is the file of the guest if that does not change meanwhile. |
| Transfer.Provider.RoundTrip | apps/runner/src/gpt_trace_runner/workstation_provider.py:151-207 | In and out again gives the same bytes, for data of any length that all layers accept, and fails for all other data. |
| Transfer.RelativePathIsRefusedLate | apps/runner/src/gpt_trace_runner/workstation_provider.py:202-204 | Such a refusal: a relative name, which the guest takes under its workspace, is written and then refused. |
| Transfer.AbsolutePathsStay | apps/kali-workstation/src/kali_workstation/guest/files.py:14-24 | Under the guest rule for names exactly the absolute ones are reported unchanged. |
| Readback.RetryDelay | apps/runner/src/gpt_trace_runner/exceptions.py:31-38 | The delay given by the server is never shortened; without one the fallback holds, up to the ceiling. |
| Readback.WaitsDouble | apps/runner/src/gpt_trace_runner/chatgpt.py:1386-1396 | Without a delay from the server the waits double from the first one up to the ceiling; a delay of at least a second is waited exactly. |
| Readback.StartsAreSpaced | apps/runner/src/gpt_trace_runner/chatgpt.py:1386-1396 | The k-th attempt is let through and starts at least k seconds after the start of the first. |
| Readback.AttemptsAreFew | apps/runner/src/gpt_trace_runner/chatgpt.py:1358-1396 | The number of attempts is bounded by the seconds of the window, whatever the server replies. |
| Readback.Client.CoolDown | apps/runner/src/gpt_trace_runner/chatgpt.py:1373-1379 | A stored cooldown is waited out in full or not at all: the sleep is begun only if it ends by the deadline, and the reading of the clock after it lies between the stored time and the deadline. |
| Readback.Client.BackOff | apps/runner/src/gpt_trace_runner/chatgpt.py:1386-1394 | A refusal before the deadline stores the present plus the wait as the next permitted time; the wait is slept in full, if it ends by the deadline, or the readback gives up; a refusal after the deadline stores nothing. |
| Readback.Client.FetchRecoverySnapshot | apps/runner/src/gpt_trace_runner/chatgpt.py:1358-1396 | No fetch starts before the time stored for it, by an earlier call or by the refusal before it, and that time leaves room for the whole wait; every retry, and a first fetch after a cooldown, was let through by a reading of the clock before the deadline, and only a first fetch without a cooldown is not compared with it; it gives up only when the next permitted time is past the deadline. |
| Readback.LateFirstFetch | apps/runner/src/gpt_trace_runner/chatgpt.py:1370-1373 | Such a fetch: without any time left and without a cooldown one is made nevertheless. |

## Left out

- Sessions.StartRun: the catalog and the configuration are inputs, and the plan of a task is the text of its fingerprints; the checks before a run (no manual VM, templates published) are a step that may fail.
- Runner.BenchmarkRunner.RunTask: it promises nothing over a journal entry that could not be cleared, because overwriting such an entry breaks the invariant (`Protocol.OverwriteKeepsInv`); the scheduler runs a task over no entry (`apps/runner/src/gpt_trace_runner/superbench/execution.py:328-352`). The browser is reduced to the click, the posted message id, the conversation id and the snapshot, each of which may fail.
- Runner.BenchmarkRunner.StartAttempt: the phase the exception handler sees is set before the journal write, so after a failed write it can be ahead of the journal; the contract says only that it is before Send.
- Runner.BenchmarkRunner.Submit: the order of its steps after the click shows only in what a return guarantees.
- Scheduler.Scheduler.AfterError: `_record_pre_runner_failure` is not one of its steps; `Scheduler.PreRunnerFailure` says what it does to the invariant and what a crash in it leaves.
- Effects.Hands.AssertResume: VMs do not vanish by themselves in the model, so confirming one before a recovered attempt goes on can fail but finds nothing new.
- Scheduler.Scheduler.RunLoop: the source drops `limit` for a frozen selection (`apps/runner/src/gpt_trace_runner/superbench/execution.py:297-298`), the only kind modelled; the `executor` argument, which the package itself never passes, pacing between tasks and adapter preparation beyond "may fail" are not modelled.
- RunControl.RunControlStore.Mutate: errors of the control file itself are not modelled; a signal while the file is missing or unreadable is outside the model, and the process dies only before or after an operation, its write being atomic.
- Escaped bytes that are no UTF-8 are replaced one by one, which cannot change whether a conversation id is transient.
- Normalize.NormalizeMessages: reads of JSON fields, text extraction and stable name construction are inputs; non-ASCII case folding does not occur.
- Provenance.InvokedToolCalls: the resolution of Apps, paths and recipients to identities is an input.
- Transfer.Broker.ImportArtifact: a lost reply to the begin of an import can leave the guest session open; the statement then is only that the target holds its old or exactly its new contents.
- Mouse and scroll events of the workstation, and the size check of a text event.
- App environments in the journal are derived from the identity of the attempt and add nothing to it.
- The rate-limit time stored in the journal, and the refusal to recover before it, only delay a recovery.
- Isolated evaluator VMs: their records are carried by the journal, their own lifecycle is not part of this model.
- `inspect_conversation_stream` is a scan of JSON deltas on top of the parser.
- `build_workspace_archive` and `SeedSession` are further writers and readers of archives.
- The second SIGINT, which raises KeyboardInterrupt, is the exception Cancelled of the models.
- HTTP routing, authentication, browser driving, libvirt, container and network commands, JSON and Parquet encoding.
