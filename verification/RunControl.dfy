// The durable status of the active run, and the store that changes it under a file lock
// while SIGINT may strike between any two of its steps.
module RunControl {
  import opened Basics

  datatype RunStatus = Running | PauseRequested | Paused | Resuming | NeedsIntervention | Completed

  // What is frozen about one task: its logical id, its adapter, and the fingerprints of its
  // specification and its contract.
  datatype PlannedTask = PlannedTask(
    logicalId: string,
    adapter: string,
    version: string,
    spec: string,
    contract: string)

  // What a run is frozen to.
  datatype Plan = Plan(campaign: string, model: string, configuration: string, tasks: map<string, PlannedTask>)

  datatype ActiveRun = ActiveRun(
    runId: string,
    status: RunStatus,
    plan: Plan,
    selected: seq<string>,
    completed: seq<string>,
    current: Option<string>,
    incident: Option<(string, string, string)>,
    retryNotBefore: Option<real>)

  // ---------------------------------------------------------------- transitions

  // The functions the store's operations pass to its one read-modify-write.
  datatype Transition =
    | Read
    | DeferRateLimit(notBefore: real)
    | SignalPause
    | RequestPause
    | PauseIfRequested
    | BeginResume
    | ConfirmRunning
    | StartTask(task: string)
    | FinishTask(task: string)
    | Intervention(reason: string, kind: string, message: string)
    | PausedError(reason: string, kind: string, message: string)
    | Complete(storageCompleted: set<string>)

  predicate Active(status: RunStatus) {
    status == Running || status == Resuming
  }

  function Pause(run: ActiveRun): ActiveRun {
    if Active(run.status) then run.(status := PauseRequested) else run
  }

  // None where the source raises RecoveryIncomplete.
  function Apply(t: Transition, run: ActiveRun): Option<ActiveRun> {
    match t
    case Read => Some(run)
    case DeferRateLimit(notBefore) =>
      var previous := if run.retryNotBefore.Some? then run.retryNotBefore.value else 0.0;
      Some(run.(retryNotBefore := Some(if previous < notBefore then notBefore else previous)))
    case SignalPause => Some(Pause(run))
    case RequestPause =>
      if run.status == Paused || run.status == PauseRequested then Some(run)
      else if !Active(run.status) then None
      else Some(run.(status := PauseRequested))
    case PauseIfRequested =>
      if run.status != PauseRequested then Some(run) else Some(run.(status := Paused, current := None))
    case BeginResume =>
      if run.status == Completed then None else Some(run.(status := Resuming))
    case ConfirmRunning =>
      if run.status == PauseRequested then Some(run)
      else if !Active(run.status) then None
      else Some(run.(status := Running, incident := None, retryNotBefore := None))
    case StartTask(task) =>
      if run.status == PauseRequested then Some(run)
      else if task !in run.selected then None
      else Some(run.(current := Some(task)))
    case FinishTask(task) =>
      if task !in run.selected then None
      else Some(run.(completed := if task in run.completed then run.completed else run.completed + [task],
                     current := if run.current == Some(task) then None else run.current))
    case Intervention(reason, kind, message) =>
      Some(run.(status := NeedsIntervention, incident := Some((reason, kind, message))))
    case PausedError(reason, kind, message) =>
      Some(run.(status := Paused, incident := Some((reason, kind, message))))
    case Complete(storageCompleted) =>
      if forall task | task in run.selected :: task in run.completed && task in storageCompleted
      then Some(run.(status := Completed, current := None, incident := None, retryNotBefore := None))
      else None
  }

  // Control state never forgets a task it marked, marks none twice and none outside the
  // frozen selection.
  predicate Frozen(run: ActiveRun) {
    && (forall i, j | 0 <= i < j < |run.completed| :: run.completed[i] != run.completed[j])
    && (forall task | task in run.completed :: task in run.selected)
  }

  // The later of two times; a time that was never set counts as zero.
  predicate LaterOf(before: Option<real>, notBefore: real, after: Option<real>) {
    var previous := GetOr(before, 0.0);
    && after.Some? && after.value >= previous && after.value >= notBefore
    && (after.value == previous || after.value == notBefore)
  }

  lemma ApplyKeepsFrozen(t: Transition, run: ActiveRun)
    requires Frozen(run) && Apply(t, run).Some?
    ensures var run' := Apply(t, run).value;
            && Frozen(run') && run'.plan == run.plan && run'.selected == run.selected && run'.runId == run.runId
            && run.completed <= run'.completed
            && (t.DeferRateLimit? ==> LaterOf(run.retryNotBefore, t.notBefore, run'.retryNotBefore)
                                      && run' == run.(retryNotBefore := run'.retryNotBefore))
            && (forall task | task in run'.completed :: task in run.completed || t == FinishTask(task))
            && (run'.status == Completed ==>
                  run.status == Completed ||
                  (t.Complete? && forall task | task in run.selected ::
                     task in run.completed && task in t.storageCompleted))
  {
  }

  // Every operation but the start of a resume leaves a stopped run stopped.
  lemma OnlyResumeActivates(t: Transition, run: ActiveRun)
    requires Apply(t, run).Some? && !Active(run.status)
    ensures Active(Apply(t, run).value.status) <==> t == BeginResume
  {
  }

  // A requested pause is answered by nothing but the pause itself, a new resume, an error or
  // the end of the run.
  predicate EndsPause(t: Transition) {
    t.PauseIfRequested? || t.BeginResume? || t.Intervention? || t.PausedError? || t.Complete?
  }

  // The status after a transition, by what could have led there.
  lemma StatusAfter(t: Transition, run: ActiveRun)
    requires Apply(t, run).Some?
    ensures var status := Apply(t, run).value.status;
            && (status == PauseRequested <==>
                  if run.status == PauseRequested then !EndsPause(t)
                  else Active(run.status) && (t.SignalPause? || t.RequestPause?))
            && (status == Paused <==>
                  || t.PausedError?
                  || (t.PauseIfRequested? && run.status == PauseRequested)
                  || (run.status == Paused && !t.BeginResume? && !t.Intervention? && !t.Complete?))
            && (status == Resuming <==> t.BeginResume? || (run.status == Resuming && Carries(t)))
            && (status == Running <==>
                  (t.ConfirmRunning? && Active(run.status)) || (run.status == Running && Carries(t)))
            && (status == Completed <==>
                  t.Complete? || (run.status == Completed && !t.Intervention? && !t.PausedError?))
  {
  }

  // The transitions that leave an active run as active as it was.
  predicate Carries(t: Transition) {
    t.Read? || t.DeferRateLimit? || t.PauseIfRequested? || t.StartTask? || t.FinishTask?
  }

  // What each status refuses: a stopped run is not confirmed, a finished one is neither paused
  // nor resumed, and only selected tasks are started, marked and needed for completion.
  lemma RefusedBy(t: Transition, run: ActiveRun)
    ensures Apply(t, run).None? <==>
              || (run.status in {NeedsIntervention, Completed} && (t.RequestPause? || t.ConfirmRunning?))
              || (run.status == Paused && t.ConfirmRunning?)
              || (run.status == Completed && t.BeginResume?)
              || (run.status != PauseRequested && t.StartTask? && t.task !in run.selected)
              || (t.FinishTask? && t.task !in run.selected)
              || (t.Complete? && exists task | task in run.selected ::
                    task !in run.completed || task !in t.storageCompleted)
  {
  }

  // ---------------------------------------------------------------- the store

  // The run an operation reads is the file, or the file with a pause from another process
  // or from a signal; a pause may follow what the operation wrote.
  predicate MaybePaused(a: ActiveRun, b: ActiveRun) {
    b == a || b == Pause(a)
  }

  ghost predicate Served(t: Transition, before: ActiveRun, after: ActiveRun, o: Outcome<ActiveRun>) {
    match o
    case Done(value) =>
      exists seen | seen in {before, Pause(before)} :: Apply(t, seen) == Some(value) && MaybePaused(value, after)
    case Raised(e) =>
      e == RecoveryIncomplete &&
      exists seen | seen in {before, Pause(before)} :: Apply(t, seen) == None && MaybePaused(seen, after)
    case Killed => false
  }

  class RunControlStore {
    var file: ActiveRun
    var depth: nat           // _transaction_depth
    var pending: bool        // _signal_pause_pending
    ghost var held: bool     // this process holds the file lock
    ghost var unapplied: bool    // a delivered pause has not been written since
    ghost var delivered: nat     // signals so far
    var signals: nat         // signals still to come: any number, but finitely many

    constructor (run: ActiveRun, signals: nat)
      ensures file == run && depth == 0 && !pending && !held && !unapplied && this.signals == signals
    {
      file, depth, pending, held, unapplied, delivered := run, 0, false, false, false, 0;
      this.signals := signals;
    }

    ghost function Measure(): nat
      reads this
    {
      2 * signals + if pending then 1 else 0
    }

    // No call of the store is active.
    ghost predicate Quiet()
      reads this
    {
      depth == 0 && !held && !pending && !unapplied
    }

    // ------------------------------------------------------------ signals

    // A point between two steps, where any number of signals may be handled.
    method Point()
      requires held ==> depth > 0
      modifies this
      ensures depth == old(depth) && held == old(held) && Measure() <= old(Measure()) && delivered >= old(delivered)
      ensures depth > 0 ==> file == old(file)
      ensures depth > 0 && delivered == old(delivered) ==> pending == old(pending) && unapplied == old(unapplied)
      ensures depth > 0 && delivered > old(delivered) ==> pending && unapplied
      ensures depth == 0 ==> MaybePaused(old(file), file)
      ensures depth == 0 && delivered == old(delivered) ==>
                pending == old(pending) && unapplied == old(unapplied) && file == old(file)
      ensures depth == 0 && delivered > old(delivered) ==> !pending && !unapplied && !Active(file.status)
      decreases Measure(), 1
    {
      var arrives: bool := *;
      if signals > 0 && arrives {
        signals := signals - 1;
        delivered, unapplied := delivered + 1, true;
        RequestPauseFromSignal();
        Point();
      }
    }

    // The signal handler.
    method RequestPauseFromSignal()
      requires unapplied && (held ==> depth > 0)
      modifies this
      ensures depth == old(depth) && held == old(held) && delivered >= old(delivered)
      ensures Measure() <= old(Measure()) + 1
      ensures depth > 0 ==> file == old(file) && pending && unapplied
      ensures depth == 0 ==> MaybePaused(old(file), file) && !pending && !unapplied && !Active(file.status)
      decreases 2 * signals + 1, 3
    {
      pending := true;
      Point();
      if depth == 0 {
        Point();
        FlushSignalPause();
      }
    }

    method FlushSignalPause()
      requires depth == 0 && !held && (unapplied ==> pending)
      modifies this
      ensures depth == 0 && !held && !pending && !unapplied
      ensures Measure() <= old(Measure()) && delivered >= old(delivered)
      ensures MaybePaused(old(file), file)
      ensures old(pending) || delivered > old(delivered) ==> !Active(file.status)
      ensures !old(pending) && delivered == old(delivered) ==> file == old(file)
      decreases Measure(), 2
    {
      Point();
      if !pending {
        return;
      }
      pending := false;
      Point();
      var _, _ := Mutate(SignalPause);
    }

    // ------------------------------------------------------------ the transaction

    // Opening the lock file and taking the lock.  Taking it twice would block forever.
    method Acquire()
      requires !held && depth > 0
      modifies this`held
      ensures held
    {
      held := true;
    }

    method Release()
      requires held
      modifies this`held
      ensures !held
    {
      held := false;
    }

    // Between transactions another process may have asked for a pause.
    method OtherProcess()
      requires !held
      modifies this`file
      ensures MaybePaused(old(file), file)
    {
      var pauses: bool := *;
      if pauses {
        file := Pause(file);
      }
    }

    // marked is the number of signals before the transaction was marked.
    method Enter() returns (ghost marked: nat)
      requires depth == 0 && !held && !pending
      modifies this
      ensures old(delivered) <= marked <= delivered && (delivered > marked ==> pending && unapplied)
      ensures depth == 1 && held && MaybePaused(old(file), file)
      ensures Measure() <= old(Measure()) && delivered >= old(delivered)
      ensures delivered == old(delivered) ==> !pending && unapplied == old(unapplied)
      ensures delivered > old(delivered) ==> !Active(file.status) || (pending && unapplied)
      ensures unapplied && !old(unapplied) ==> pending
      decreases Measure(), 3
    {
      Point();                 // the lock file is opened
      var d := depth;
      Point();
      depth := d + 1;
      marked := delivered;
      Point();
      OtherProcess();
      Acquire();
      Point();
    }

    method Exit()
      requires depth == 1 && held && (unapplied ==> pending)
      modifies this
      ensures Quiet() && MaybePaused(old(file), file)
      ensures Measure() <= old(Measure()) && delivered >= old(delivered)
      ensures old(pending) || delivered > old(delivered) ==> !Active(file.status)
      decreases Measure(), 3
    {
      Point();
      Release();
      Point();
      var d := depth;
      Point();
      depth := d - 1;
      Point();
      if depth == 0 {
        FlushSignalPause();
      }
      Point();
    }

    // One read-modify-write.  The lock is never taken twice, and every pause that was
    // delivered in the meantime has been written when it returns.  A pause before the
    // transaction was marked is in the file it reads, and only the start of a resume overrides
    // it; a pause after that leaves every run inactive.
    method Mutate(t: Transition) returns (o: Outcome<ActiveRun>, ghost marked: nat)
      requires depth == 0 && !held && !pending && (unapplied ==> t == SignalPause)
      modifies this
      ensures Quiet() && Served(t, old(file), file, o)
      ensures Measure() <= old(Measure()) && delivered >= old(delivered)
      ensures old(delivered) <= marked <= delivered && (delivered > marked ==> !Active(file.status))
      ensures delivered > old(delivered) && t != BeginResume ==> !Active(file.status)
      ensures t == SignalPause ==> !Active(file.status) && MaybePaused(old(file), file)
      decreases Measure(), 4
    {
      marked := Enter();
      var state := file;
      Point();
      var next := Apply(t, state);
      Point();
      if next.Some? && t != Read {
        file := next.value;
        if t == SignalPause {
          unapplied := pending;
        }
      }
      o := if next.Some? then Done(next.value) else Raised(RecoveryIncomplete);
      if next.Some? && !Active(state.status) {
        OnlyResumeActivates(t, state);
      }
      Exit();
    }
  }
}
