// The frozen-selection scheduler: recover, then run every selected task once more, and
// mark as completed only what storage has completed.
module Scheduler {
  import opened Basics
  import opened Benchmark
  import Storage
  import StorageHistory
  import Journal
  import opened Protocol
  import opened Effects
  import opened Requests
  import opened Runner
  import opened Recovery
  import RC = RunControl

  predicate StorageCompleted(rows: Storage.Db, task: string) {
    task in rows && rows[task].status == Storage.Completed
  }

  // Control state agrees with storage.
  ghost predicate Agree(run: RC.ActiveRun, rows: Storage.Db) {
    && RC.Frozen(run)
    && (forall task | task in run.completed :: StorageCompleted(rows, task))
    && (run.status == RC.Completed ==>
          forall task | task in run.selected :: task in run.completed && StorageCompleted(rows, task))
  }

  class Scheduler {
    const hands: Hands
    const control: RC.RunControlStore
    const runner: BenchmarkRunner
    const later: Hands               // the same hands, after an attempt has raised
    const mender: BenchmarkRunner    // the same runner, with those
    const tasks: map<string, TaskSpec>
    const context: Context

    constructor (hands: Hands, later: Hands, control: RC.RunControlStore, runnerId: string,
                 tasks: map<string, TaskSpec>, context: Context)
      ensures this.hands == hands && this.control == control && this.tasks == tasks && this.context == context
      ensures runner.hands == runner.later == hands && runner.runnerId == runnerId
      ensures mender.hands == mender.later == this.later == later && mender.runnerId == runnerId
    {
      this.later := later;
      mender := new BenchmarkRunner(later, later, runnerId);
      this.hands, this.control, this.tasks, this.context := hands, control, tasks, context;
      runner := new BenchmarkRunner(hands, hands, runnerId);
    }

    // The catalog holds the task of every selected id.
    ghost predicate Ready()
      reads control
    {
      && runner.hands == runner.later == hands && hands.Wired() && runner.runnerId != ""
      && mender.hands == mender.later == later && later.Wired() && mender.runnerId != "" && later.plant == hands.plant
      && control as object !in hands.plant.Frame()
      && (forall t | t in tasks :: tasks[t].Valid() && tasks[t].contract.taskId == t)
      && (forall t | t in control.file.selected :: t in tasks)
    }

    ghost function S(): State
      reads hands.plant, hands.plant.journal, hands.plant.service, hands.plant.machines, hands.plant.teacher
    {
      hands.S()
    }

    ghost predicate Good()
      reads control, hands.plant, hands.plant.journal, hands.plant.service, hands.plant.machines, hands.plant.teacher
    {
      Ready() && Inv(S()) && Agree(control.file, S().rows)
    }

    lemma Standing()
      requires Good()
      ensures hands.Wired() && control as object !in hands.plant.Frame() && Inv(S())
      ensures later.Wired() && later.plant == hands.plant
    {
    }

    lemma MarkedAreCompleted()
      requires Good()
      ensures forall task | task in control.file.completed :: StorageCompleted(S().rows, task)
    {
    }

    // ------------------------------------------------------------ control operations

    // One store operation, in a process that may be interrupted or die around it.
    method Control(t: RC.Transition, h: Hands) returns (o: Outcome<RC.ActiveRun>)
      requires Good() && control.Quiet()
      requires t.Complete? ==> forall task | task in t.storageCompleted :: StorageCompleted(S().rows, task)
      requires t.FinishTask? ==> StorageCompleted(S().rows, t.task)
      modifies control
      ensures Good() && control.Quiet()
      ensures Extends(old(control.file), control.file)
      ensures Gentle(t) && Going(old(control.file).status) ==> Going(control.file.status)
      ensures t == RC.Read ==> RC.MaybePaused(old(control.file), control.file)
      ensures o.Done? ==> RC.MaybePaused(o.value, control.file)
      ensures o.Done? ==>
                || RC.Apply(t, old(control.file)) == Some(o.value)
                || RC.Apply(t, RC.Pause(old(control.file))) == Some(o.value)
      ensures h.calm ==>
                (RC.Apply(t, old(control.file)).Some? && RC.Apply(t, RC.Pause(old(control.file))).Some? ==> o.Done?)
    {
      hide Inv, Agree, RC.Served;
      var _ :- h.Try();
      ghost var run := control.file;
      ghost var marked;
      o, marked := control.Mutate(t);
      ServedKeepsAgree(t, run, control.file, o, S().rows);
      if o.Done? {
        var _ :- h.Try();
      }
    }

    method Look(h: Hands) returns (o: Outcome<RC.ActiveRun>)
      requires Good() && control.Quiet()
      modifies control
      ensures Good() && control.Quiet() && Extends(old(control.file), control.file)
      ensures RC.MaybePaused(old(control.file), control.file)
      ensures Going(old(control.file).status) ==> Going(control.file.status)
      ensures o.Done? ==> RC.MaybePaused(o.value, control.file)
      ensures o.Done? ==> RC.MaybePaused(old(control.file), o.value)
      ensures o.Done? ==> control.file.completed == o.value.completed
      ensures o.Done? && o.value.status == RC.PauseRequested ==> control.file.status == RC.PauseRequested
      ensures h.calm ==> o.Done?
      ensures control.file.current == old(control.file).current
    {
      hide Good;
      o := Control(RC.Read, h);
    }

    method Begin(task: string) returns (o: Outcome<()>)
      requires Good() && control.Quiet()
      modifies control
      ensures Good() && control.Quiet() && Extends(old(control.file), control.file)
      ensures Going(old(control.file).status) ==> Going(control.file.status)
      ensures o.Done? ==> control.file.current == Some(task) || control.file.status == RC.PauseRequested
      ensures hands.calm && task in old(control.file).selected ==> o.Done?
    {
      hide Good;
      var _ :- Control(RC.StartTask(task), hands);
      return Done(());
    }

    method Mark(task: string, h: Hands) returns (o: Outcome<()>)
      requires Good() && control.Quiet() && StorageCompleted(S().rows, task)
      modifies control
      ensures Good() && control.Quiet() && Extends(old(control.file), control.file)
      ensures Going(old(control.file).status) ==> Going(control.file.status)
      ensures o.Done? ==> task in control.file.completed
      ensures h.calm && task in old(control.file).selected ==> o.Done?
    {
      hide Good;
      var _ :- Control(RC.FinishTask(task), h);
      return Done(());
    }

    // A pause that was requested is taken; a run that is not paused goes on.
    method PauseNow() returns (o: Outcome<()>)
      requires Good() && control.Quiet()
      requires control.file.status == RC.PauseRequested || control.file.status == RC.Paused
      modifies control
      ensures Good() && control.Quiet() && Extends(old(control.file), control.file)
      ensures o.Done? ==> control.file.status == RC.Paused
      ensures hands.calm ==> o.Done?
      ensures o.Done? ==> control.file.completed == old(control.file).completed
    {
      hide Good;
      var _ :- Control(RC.PauseIfRequested, hands);
      return Done(());
    }

    // True when a pause was requested, and is now taken.
    method TakePause() returns (o: Outcome<bool>)
      requires Good() && control.Quiet()
      modifies control
      ensures Good() && control.Quiet() && Extends(old(control.file), control.file)
      ensures o == Done(true) ==> control.file.status == RC.Paused
      ensures o == Done(false) && Going(old(control.file).status) ==> Going(control.file.status)
      ensures o == Done(false) ==> old(control.file).status != RC.PauseRequested
                                   && control.file.current == old(control.file).current
      ensures hands.calm ==> o.Done?
      ensures o.Done? ==> control.file.completed == old(control.file).completed
    {
      hide Good;
      var active :- Look(hands);
      if active.status == RC.PauseRequested {
        var _ :- PauseNow();
        return Done(true);
      }
      return Done(false);
    }

    method ProbePause() returns (o: Outcome<()>)
      requires Good() && control.Quiet()
      modifies control
      ensures Good() && control.Quiet() && Extends(old(control.file), control.file)
      ensures Going(old(control.file).status) ==> Going(control.file.status)
      ensures hands.calm && Going(old(control.file).status) ==> o.Done?
      ensures o.Done? ==> control.file.current == old(control.file).current
                          && control.file.completed == old(control.file).completed
    {
      hide Good;
      var probe: bool := *;
      if probe {
        var _ :- Control(RC.RequestPause, hands);
      }
      return Done(());
    }

    // ------------------------------------------------------------ one task

    // One attempt, and what is done at once when it raises.
    method Attempt(task: string) returns (o: Outcome<()>)
      requires Good() && control.Quiet() && S().journal == None && task in tasks
      requires control.file.current == Some(task)
      modifies control, hands.plant.Frame()
      ensures Good() && control.Quiet() && Extends(old(control.file), control.file) && Keeps(old(S()), S())
      ensures o.Done? ==> S().journal == None && StorageCompleted(S().rows, task) && control.file == old(control.file)
      ensures hands.calm && Runnable(old(S()), tasks[task], true, context) ==> o.Done?
      ensures o.Done? ==> RowsAllow(old(S()), S(), tasks, task, context)
      ensures later.calm && o.Raised? && o.exn != RateLimited && o.exn != Cancelled ==>
                !CompletedAndPending(S(), tasks, task)
    {
      hide Inv, Agree, Keeps, RC.Apply, Plant.S;
      KeepsChains();
      ghost var s := S();
      var _ :- hands.Try();                    // the adapter prepares the task
      o := runner.RunTask(tasks[task], true, context);
      KeepsAgree(control.file, s, S());
      if o.Raised? {
        o := AfterError(task, o.exn);
      }
    }

    // A completion that was committed is cleaned up before the error goes on.  A pause that was
    // asked for, and a rate limit, leave everything as it is.
    method AfterError(task: string, exn: Exn) returns (o: Outcome<()>)
      requires Good() && control.Quiet() && task in tasks
      modifies control, hands.plant.Frame()
      ensures Good() && control.Quiet() && Extends(old(control.file), control.file) && Keeps(old(S()), S())
      ensures !o.Done?
      ensures exn == RateLimited || (exn == Cancelled && old(control.file).status == RC.PauseRequested) ==>
                S() == old(S())
      ensures later.calm && CompletedAndPending(S(), tasks, task) ==>
                o == Raised(exn) &&
                (exn == RateLimited || (exn == Cancelled && control.file.status == RC.PauseRequested))
      ensures NewlyMarked(old(control.file), control.file, task) ==> S().journal == None
      ensures later.calm && exn == OtherError && Cleanable(old(S()), old(control.file), tasks, task) ==>
                task in control.file.completed
    {
      hide Good, Inv, Keeps, RC.Apply, Plant.S, CompletedAndPending, Cleanable, Extends;
      KeepsChains();
      ExtendsChains();
      Standing();
      CleanableStays(S(), control.file, tasks, task);
      var latest :- later.GetRow(task);
      var pending :- later.LoadJournal();
      var paused :- WasPaused(exn);
      if paused {
        return Raised(exn);
      }
      o := Repair(task, exn, latest, pending);
    }

    method Repair(task: string, exn: Exn, latest: Option<Storage.Row>, pending: Option<Journal.Entry>)
      returns (o: Outcome<()>)
      requires Good() && control.Quiet() && task in tasks && pending == S().journal
      requires latest == if task in S().rows then Some(S().rows[task]) else None
      modifies control, hands.plant.Frame()
      ensures Good() && control.Quiet() && Extends(old(control.file), control.file) && Keeps(old(S()), S())
      ensures !o.Done?
      ensures exn == RateLimited ==> S() == old(S())
      ensures later.calm && CompletedAndPending(S(), tasks, task) ==> o == Raised(exn) && exn == RateLimited
      ensures NewlyMarked(old(control.file), control.file, task) ==> S().journal == None
      ensures later.calm && exn == OtherError && Cleanable(old(S()), old(control.file), tasks, task) ==>
                task in control.file.completed
    {
      hide Good, Inv, Keeps, RC.Apply, Resolved, Recoverable, Plant.S, CompletedAndPending, Cleanable, Extends;
      KeepsChains();
      ExtendsChains();
      Standing();
      CompletedAndPendingMeans(S(), control.file, tasks, task);
      if latest.Some? && latest.value.status == Storage.Completed && pending.Some? && pending.value.task == task {
        if exn == RateLimited {
          return Raised(exn);
        }
        var _ :- CleanUp(task, exn);
      }
      return Raised(exn);
    }

    // A cancellation that a requested pause has caused.
    method WasPaused(exn: Exn) returns (o: Outcome<bool>)
      requires Good() && control.Quiet()
      modifies control
      ensures Good() && control.Quiet() && Extends(old(control.file), control.file)
      ensures control.file.completed == old(control.file).completed
      ensures o == Done(true) ==> exn == Cancelled && control.file.status == RC.PauseRequested
      ensures o == Done(false) ==> exn != Cancelled || old(control.file).status != RC.PauseRequested
      ensures later.calm ==> o.Done?
    {
      hide Good, RC.Apply, Plant.S;
      if exn == Cancelled {
        var active :- Look(later);
        return Done(active.status == RC.PauseRequested);
      }
      return Done(false);
    }

    method CleanUp(task: string, exn: Exn) returns (o: Outcome<()>)
      requires Good() && control.Quiet() && task in tasks && StorageCompleted(S().rows, task)
      modifies control, hands.plant.Frame()
      ensures Good() && control.Quiet() && Extends(old(control.file), control.file) && Keeps(old(S()), S())
      ensures later.calm ==> !CompletedAndPending(S(), tasks, task)
      ensures NewlyMarked(old(control.file), control.file, task) ==> S().journal == None
      ensures later.calm && exn == OtherError && Cleanable(old(S()), old(control.file), tasks, task) ==>
                task in control.file.completed
    {
      hide Inv, Agree, Keeps, RC.Apply, Resolved, Recoverable, Plant.S, CompletedAndPending, Cleanable;
      KeepsChains();
      ghost var s := S();
      CompletedAndPendingMeans(s, control.file, tasks, task);
      o := ReconcileJournal(mender, map[task := tasks[task]], context);
      KeepsAgree(control.file, s, S());
      StillPending(s, S(), tasks, task);
      if !o.Done? {
        return;
      }
      var keyboard: bool := *;                 // KeyboardInterrupt rather than cancellation
      if exn == OtherError || (exn == Cancelled && !keyboard) {
        KeepsCompleted(s, S(), task);
        var _ :- Mark(task, later);
      }
      return Done(());
    }

    // One task of the selection.  True means it is done, false that the run is paused.
    method RunOne(task: string) returns (o: Outcome<bool>)
      requires Good() && control.Quiet() && S().journal == None && task in tasks
      modifies control, hands.plant.Frame()
      ensures Good() && control.Quiet() && Extends(old(control.file), control.file) && Keeps(old(S()), S())
      ensures o == Done(true) ==> S().journal == None && task in control.file.completed
      ensures o == Done(true) && Going(old(control.file).status) ==> Going(control.file.status)
      ensures o == Done(false) ==> control.file.status == RC.Paused
      ensures hands.calm && ToBeRun(old(S()), old(control.file), tasks, task, context) ==> o.Done?
      ensures o.Done? ==> RowsAllow(old(S()), S(), tasks, task, context)
      ensures o == Done(true) && task in old(control.file).completed ==>
                S() == old(S()) && control.file.current == old(control.file).current
    {
      hide Good, Keeps, Going, Extends, RC.Apply, Plant.S, Runnable, RowsAllow;
      SameAllows(S(), tasks, task, context);
      KeepsChains();
      ExtendsChains();
      Standing();
      var _ :- ProbePause();
      var paused :- TakePause();
      if paused {
        return Done(false);
      }
      var active :- Look(hands);
      if task in active.completed {
        return Done(true);
      }
      o := RunUnmarked(task);
    }

    // The task is named, and a pause asked for meanwhile is taken before it runs.
    method RunUnmarked(task: string) returns (o: Outcome<bool>)
      requires Good() && control.Quiet() && S().journal == None && task in tasks
      modifies control, hands.plant.Frame()
      ensures Good() && control.Quiet() && Extends(old(control.file), control.file) && Keeps(old(S()), S())
      ensures o == Done(true) ==> S().journal == None && task in control.file.completed
      ensures o == Done(true) && Going(old(control.file).status) ==> Going(control.file.status)
      ensures o == Done(false) ==> control.file.status == RC.Paused
      ensures hands.calm && ToBeRun(old(S()), old(control.file), tasks, task, context) ==> o.Done?
      ensures o.Done? ==> RowsAllow(old(S()), S(), tasks, task, context)
    {
      hide Good, Keeps, Going, Extends, RC.Apply, Plant.S, Runnable, RowsAllow;
      SameAllows(S(), tasks, task, context);
      KeepsChains();
      ExtendsChains();
      Standing();
      var _ :- Begin(task);
      var paused :- TakePause();
      if paused {
        return Done(false);
      }
      o := RunScheduled(task);
    }

    // Control state names the task before anything is done for it.
    method RunScheduled(task: string) returns (o: Outcome<bool>)
      requires Good() && control.Quiet() && S().journal == None && task in tasks
      requires control.file.current == Some(task)
      modifies control, hands.plant.Frame()
      ensures Good() && control.Quiet() && Extends(old(control.file), control.file) && Keeps(old(S()), S())
      ensures o == Done(true) ==> S().journal == None && task in control.file.completed
      ensures o == Done(true) && Going(old(control.file).status) ==> Going(control.file.status)
      ensures o == Done(false) ==> control.file.status == RC.Paused
      ensures hands.calm && ToBeRun(old(S()), old(control.file), tasks, task, context) ==> o.Done?
      ensures o.Done? ==> RowsAllow(old(S()), S(), tasks, task, context)
    {
      hide Good, Keeps, Going, Extends, RC.Apply, Plant.S, Runnable;
      KeepsChains();
      ExtendsChains();
      Standing();
      var row :- hands.GetRow(task);
      if row.Some? {
        if row.value.status == Storage.Completed {
          o := Skip(task);
          return;
        }
        if row.value.status != Storage.Failed {
          return Raised(RecoveryIncomplete);   // a running row needs its journal
        }
      }
      var _ :- Attempt(task);
      o := Settle(task);
    }

    // Done already; the stored task contract is current, or this raises.
    method Skip(task: string) returns (o: Outcome<bool>)
      requires Good() && control.Quiet() && StorageCompleted(S().rows, task)
      modifies control
      ensures Good() && control.Quiet() && Extends(old(control.file), control.file)
      ensures o.Done? ==> o.value && task in control.file.completed
      ensures Going(old(control.file).status) ==> Going(control.file.status)
      ensures hands.calm && task in old(control.file).selected ==> o.Done?
    {
      hide Good, Going, Extends, RC.Apply, Plant.S;
      ExtendsChains();
      var _ :- hands.Try();
      var _ :- Mark(task, hands);
      return Done(true);
    }

    // A finished attempt is marked, and then a requested pause is taken.
    method Settle(task: string) returns (o: Outcome<bool>)
      requires Good() && control.Quiet() && StorageCompleted(S().rows, task)
      modifies control
      ensures Good() && control.Quiet() && Extends(old(control.file), control.file)
      ensures o == Done(true) ==> task in control.file.completed
      ensures o == Done(true) && Going(old(control.file).status) ==> Going(control.file.status)
      ensures o == Done(false) ==> control.file.status == RC.Paused
      ensures hands.calm && Going(old(control.file).status) && task in old(control.file).selected ==> o.Done?
    {
      hide Good, Going, Extends, RC.Apply, Plant.S;
      ExtendsChains();
      Standing();
      var _ :- ProbePause();
      var _ :- MarkCompleted(task);
      var paused :- TakePause();
      return Done(!paused);
    }

    method MarkCompleted(task: string) returns (o: Outcome<()>)
      requires Good() && control.Quiet() && StorageCompleted(S().rows, task)
      modifies control
      ensures Good() && control.Quiet() && Extends(old(control.file), control.file)
      ensures o.Done? ==> task in control.file.completed
      ensures Going(old(control.file).status) ==> Going(control.file.status)
      ensures hands.calm && task in old(control.file).selected ==> o.Done?
    {
      hide Good, Going, Extends, RC.Apply, Plant.S;
      ExtendsChains();
      Standing();
      var row :- hands.GetRow(task);
      if row.Some? && row.value.status == Storage.Completed {
        var _ :- Mark(task, hands);
      }
      return Done(());
    }

    // ------------------------------------------------------------ the selection

    // One turn of the loop takes no task out of those that may run.
    method Turn(task: string, selected: seq<string>) returns (o: Outcome<bool>)
      requires Good() && control.Quiet() && S().journal == None && selected == control.file.selected
      requires task in selected && Going(control.file.status)
      modifies control, hands.plant.Frame()
      ensures Good() && control.Quiet() && Extends(old(control.file), control.file) && Keeps(old(S()), S())
      ensures o == Done(true) ==> S().journal == None && task in control.file.completed
                                  && Going(control.file.status)
      ensures o == Done(false) ==> control.file.status == RC.Paused
      ensures hands.calm && AllRunnable(old(S()), selected, tasks, context) ==> o.Done?
      ensures o.Done? && AllRunnable(old(S()), selected, tasks, context) ==>
                AllRunnable(S(), selected, tasks, context)
    {
      hide Inv, Agree, Keeps, RC.Apply, Plant.S, Runnable, RowsAllow, Extends;
      ghost var s := S();
      o := RunOne(task);
      if o.Done? && AllRunnable(s, selected, tasks, context) {
        AllowedStays(s, S(), selected, tasks, task, context);
      }
    }

    method RunLoop(selected: seq<string>) returns (o: Outcome<()>)
      requires Good() && control.Quiet() && S().journal == None && selected == control.file.selected
      requires Going(control.file.status)
      modifies control, hands.plant.Frame()
      ensures Good() && control.Quiet() && Extends(old(control.file), control.file) && Keeps(old(S()), S())
      ensures o.Done? ==> control.file.status == RC.Paused || (AllDone(control.file) && Going(control.file.status))
      ensures hands.calm && AllRunnable(old(S()), selected, tasks, context) ==> o.Done?
    {
      hide Good, Keeps, RC.Apply, Plant.S, AllRunnable;
      KeepsChains();
      ghost var s := S();
      var i := 0;
      while i < |selected|
        invariant 0 <= i <= |selected|
        invariant Good() && control.Quiet() && S().journal == None && Going(control.file.status)
        invariant Extends(old(control.file), control.file) && Keeps(s, S())
        invariant forall j | 0 <= j < i :: selected[j] in control.file.completed
        invariant AllRunnable(s, selected, tasks, context) ==> AllRunnable(S(), selected, tasks, context)
      {
        var done := Turn(selected[i], selected);
        if !done.Done? {
          return done.PropagateFailure();
        }
        if !done.value {
          return Done(());
        }
        i := i + 1;
      }
      return Done(());
    }

    // A journal of another selection is left alone.
    method RecoverPending(selected: seq<string>) returns (o: Outcome<()>)
      requires Good() && selected == control.file.selected
      modifies hands.plant.Frame()
      ensures Good() && Keeps(old(S()), S())
      ensures o.Done? ==> S().journal == None
      ensures old(S()).journal.Some? && old(S()).journal.value.task !in selected ==> !o.Done? && S() == old(S())
      ensures o.Done? && AllRunnable(old(S()), selected, tasks, context) ==> AllRunnable(S(), selected, tasks, context)
      ensures hands.calm && PendingIsOurs(old(S()), selected, tasks) ==> o.Done?
    {
      hide Inv, Agree, Keeps, Resolved, Recoverable, Plant.S;
      KeepsChains();
      ghost var s := S();
      var pending :- hands.LoadJournal();
      if pending.Some? && pending.value.task !in selected {
        return Raised(RecoveryIncomplete);
      }
      if pending.Some? {
        o := ReconcileJournal(runner, map[pending.value.task := tasks[pending.value.task]], context);
        KeepsAgree(control.file, s, S());
        if o.Done? {
          RecoveredAllows(s, S(), tasks, pending.value, context);
          if AllRunnable(s, selected, tasks, context) {
            AllowedStays(s, S(), selected, tasks, pending.value.task, context);
          }
        }
        return;
      }
      return Done(());
    }

    // A pause asked for before anything has started; true when it is taken.
    method EarlyPause() returns (o: Outcome<bool>)
      requires Good() && control.Quiet()
      modifies control
      ensures Good() && control.Quiet() && Extends(old(control.file), control.file)
      ensures o == Done(true) ==> control.file.status == RC.Paused
      ensures o == Done(false) ==> control.file == old(control.file)
      ensures hands.calm && CanGoOn(old(control.file).status) ==> o.Done?
    {
      hide Good;
      var probe: bool := *;
      if probe {
        var _ :- Control(RC.RequestPause, hands);
        var _ :- PauseNow();
      }
      return Done(probe);
    }

    // The run is confirmed as running; true when a pause came first.
    method Confirm() returns (o: Outcome<bool>)
      requires Good() && control.Quiet()
      modifies control
      ensures Good() && control.Quiet() && Extends(old(control.file), control.file)
      ensures o == Done(true) ==> control.file.status == RC.Paused
      ensures o == Done(false) ==> Going(control.file.status)
      ensures hands.calm && CanGoOn(old(control.file).status) ==> o.Done?
    {
      hide Good;
      var active :- Control(RC.ConfirmRunning, hands);
      if active.status == RC.PauseRequested {
        var _ :- PauseNow();
        return Done(true);
      }
      return Done(false);
    }

    method RunUninterrupted(selected: seq<string>) returns (o: Outcome<()>)
      requires Good() && control.Quiet() && selected == control.file.selected
      modifies control, hands.plant.Frame()
      ensures Good() && control.Quiet() && Extends(old(control.file), control.file) && Keeps(old(S()), S())
      ensures o.Done? ==> control.file.status == RC.Paused || (AllDone(control.file) && Going(control.file.status))
      ensures hands.calm && Passable(old(S()), old(control.file), tasks, context) ==> o.Done?
    {
      hide Inv, Agree, Keeps, RC.Apply, Plant.S;
      KeepsChains();
      var _ :- hands.Try();                    // storage is healthy
      var paused :- EarlyPause();
      if paused {
        return Done(());
      }
      var _ :- RecoverPending(selected);
      paused :- Confirm();
      if paused {
        return Done(());
      }
      o := RunLoop(selected);
    }

    // A cancellation that a pause caused ends the run normally.
    method RunPending(selected: seq<string>) returns (o: Outcome<()>)
      requires Good() && control.Quiet() && selected == control.file.selected
      modifies control, hands.plant.Frame()
      ensures Good() && control.Quiet() && Extends(old(control.file), control.file) && Keeps(old(S()), S())
      ensures o.Done? ==> control.file.status == RC.Paused || (AllDone(control.file) && Going(control.file.status))
      ensures hands.calm && Passable(old(S()), old(control.file), tasks, context) ==> o.Done?
    {
      hide Inv, Agree, Keeps, RC.Apply, Plant.S;
      KeepsChains();
      o := RunUninterrupted(selected);
      if o == Raised(Cancelled) {
        var active :- Look(hands);
        if active.status == RC.PauseRequested {
          o := PauseNow();
        }
      }
    }

    // ------------------------------------------------------------ the run

    // The final proof that storage has completed every frozen task.
    method StorageProof(run: RC.ActiveRun) returns (o: Outcome<set<string>>)
      requires hands.Wired()
      ensures o.Done? ==> forall task | task in o.value :: StorageCompleted(S().rows, task)
      ensures o.Done? ==> forall task | task in run.selected :: task in o.value
      ensures hands.calm && (forall task | task in run.selected :: StorageCompleted(S().rows, task)) ==> o.Done?
    {
      var proved: set<string> := {};
      var i := 0;
      while i < |run.selected|
        invariant 0 <= i <= |run.selected|
        invariant forall task | task in proved :: StorageCompleted(S().rows, task)
        invariant forall j | 0 <= j < i :: run.selected[j] in proved
      {
        assert run.selected[i] in run.selected;
        var row :- hands.GetRow(run.selected[i]);
        if row.None? || row.value.status != Storage.Completed {
          return Raised(RecoveryIncomplete);
        }
        proved := proved + {run.selected[i]};
        i := i + 1;
      }
      return Done(proved);
    }

    // A pause that arrives during the final proof wins over completion.
    method Conclude() returns (o: Outcome<()>)
      requires Good() && control.Quiet()
      modifies control
      ensures Good() && control.Quiet() && Extends(old(control.file), control.file)
      ensures o.Done? && (Going(old(control.file).status) || old(control.file).status == RC.Paused) ==>
                control.file.status == RC.Paused || control.file.status == RC.Completed
      ensures hands.calm && (old(control.file).status == RC.Paused || Concludable(old(control.file))) ==> o.Done?
    {
      hide Good, RC.Apply, Plant.S;
      var run :- Look(hands);
      if run.status == RC.PauseRequested {
        o := PauseNow();
        return;
      }
      if RC.Active(run.status) {
        if exists task | task in run.selected :: task !in run.completed {
          return Raised(RecoveryIncomplete);
        }
        o := Prove(run);
        return;
      }
      return Done(());
    }

    method Prove(run: RC.ActiveRun) returns (o: Outcome<()>)
      requires Good() && control.Quiet()
      modifies control
      ensures Good() && control.Quiet() && Extends(old(control.file), control.file)
      ensures o.Done? ==> control.file.status == RC.Paused || control.file.status == RC.Completed
      ensures hands.calm && Concludable(old(control.file)) && RC.MaybePaused(run, old(control.file)) ==> o.Done?
    {
      hide Good, Plant.S, Extends, RC.Apply;
      ExtendsChains();
      Standing();
      MarkedAreCompleted();
      var proved :- StorageProof(run);
      o := ConcludeProved(proved);
    }

    method ConcludeProved(proved: set<string>) returns (o: Outcome<()>)
      requires Good() && control.Quiet() && forall task | task in proved :: StorageCompleted(S().rows, task)
      modifies control
      ensures Good() && control.Quiet() && Extends(old(control.file), control.file)
      ensures o.Done? ==> control.file.status == RC.Paused || control.file.status == RC.Completed
      ensures hands.calm && Concludable(old(control.file)) && Proves(proved, old(control.file)) ==> o.Done?
    {
      hide Good, Plant.S, Extends, RC.Apply;
      ExtendsChains();
      Standing();
      var run :- Look(hands);
      if run.status == RC.PauseRequested {
        o := PauseNow();
        return;
      }
      if RC.Active(run.status) {
        o := CompleteWith(proved);
        return;
      } else if run.status != RC.Completed {
        return Raised(RecoveryIncomplete);
      }
      return Done(());
    }

    method CompleteWith(proved: set<string>) returns (o: Outcome<()>)
      requires Good() && control.Quiet() && forall task | task in proved :: StorageCompleted(S().rows, task)
      modifies control
      ensures Good() && control.Quiet() && Extends(old(control.file), control.file)
      ensures o.Done? ==> control.file.status == RC.Completed
      ensures hands.calm && AllDone(old(control.file)) && Proves(proved, old(control.file)) ==> o.Done?
    {
      hide Good, Plant.S, Extends;
      var _ :- Control(RC.Complete(proved), hands);
      return Done(());
    }

    // The run is paused, and is not to be resumed before the given time.
    method Defer(notBefore: real) returns (o: Outcome<()>)
      requires Good() && control.Quiet()
      modifies control
      ensures Good() && control.Quiet() && Extends(old(control.file), control.file)
      ensures o.Done? ==> control.file.status == RC.Paused
                          && RC.LaterOf(old(control.file.retryNotBefore), notBefore, control.file.retryNotBefore)
                          && control.file.incident.Some?
      ensures hands.calm ==> o.Done?
    {
      hide Good, Plant.S;
      var _ :- Control(RC.DeferRateLimit(notBefore), hands);
      var _ :- Control(RC.PausedError("rate_limited", "RateLimited", ""), hands);
      return Done(());
    }

    // An error stops the run in a status that says why.
    method Incident(exn: Exn, notBefore: real) returns (o: Outcome<()>)
      requires Good() && control.Quiet()
      modifies control
      ensures Good() && control.Quiet() && Extends(old(control.file), control.file)
      ensures !o.Done?
      ensures hands.calm ==> o == Raised(exn)
      ensures hands.calm && (old(control.file.status) == RC.Completed || exn != RateLimited) ==>
                control.file.retryNotBefore == old(control.file.retryNotBefore)
      ensures hands.calm && old(control.file.status) != RC.Completed ==>
                && control.file.status == (if exn == RateLimited then RC.Paused else RC.NeedsIntervention)
                && control.file.incident.Some?
      ensures hands.calm && old(control.file.status) != RC.Completed && exn == RateLimited ==>
                RC.LaterOf(old(control.file.retryNotBefore), notBefore, control.file.retryNotBefore)
      ensures hands.calm && old(control.file.status) == RC.Completed ==> control.file.status == RC.Completed
    {
      hide Good, Plant.S;
      var run :- Look(hands);
      if run.status != RC.Completed {
        if exn == RateLimited {
          var _ :- Defer(notBefore);
        } else {
          var _ :- Control(RC.Intervention("incident", "", ""), hands);
        }
      }
      return Raised(exn);
    }

    // One execution of the active run, from the first recovery to its last word.
    method Execute() returns (o: Outcome<()>)
      requires Good() && control.Quiet()
      modifies control, hands.plant.Frame()
      ensures Good() && control.Quiet() && Extends(old(control.file), control.file) && Keeps(old(S()), S())
      ensures o.Done? ==> control.file.status == RC.Paused || control.file.status == RC.Completed
      ensures hands.calm && o.Raised? && o.exn != Cancelled ==>
                control.file.status == RC.Completed ||
                (control.file.status == (if o.exn == RateLimited then RC.Paused else RC.NeedsIntervention)
                 && control.file.incident.Some?)
      ensures hands.calm && Passable(old(S()), old(control.file), tasks, context) ==> o.Done?
    {
      hide Good, Keeps, Plant.S;
      KeepsChains();
      var selected := control.file.selected;
      o := RunPending(selected);
      if o.Done? {
        o := Conclude();
      }
      if o == Raised(Cancelled) {
        var run :- Look(hands);
        if run.status == RC.PauseRequested {
          o := PauseNow();
        }
      } else if o.Raised? {
        var notBefore: real := *;
        o := Incident(o.exn, notBefore);
      }
    }
  }

  // The run goes on, the task is selected, and its stored row allows a run.
  predicate ToBeRun(s: State, run: RC.ActiveRun, tasks: map<string, TaskSpec>, task: string, context: Context) {
    Going(run.status) && task in run.selected && task in tasks && Runnable(s, tasks[task], true, context)
  }

  // The stored rows of these tasks allow a run.
  ghost predicate AllRunnable(s: State, selected: seq<string>, tasks: map<string, TaskSpec>, context: Context) {
    forall task | task in selected && task in tasks :: Runnable(s, tasks[task], true, context)
  }

  // One task leaves the rows of the others alone, and its own in a state that allows a run.
  ghost predicate RowsAllow(s: State, s': State, tasks: map<string, TaskSpec>, task: string, context: Context) {
    && Others(s.rows, s'.rows, task)
    && (task in tasks && Runnable(s, tasks[task], true, context) ==> Runnable(s', tasks[task], true, context))
  }

  predicate CanGoOn(status: RC.RunStatus) {
    RC.Active(status) || status == RC.PauseRequested
  }

  // A pending journal is of this selection, and can be recovered.
  ghost predicate PendingIsOurs(s: State, selected: seq<string>, tasks: map<string, TaskSpec>) {
    s.journal.Some? ==>
      var task := s.journal.value.task;
      task in selected && task in tasks && Recoverable(s, map[task := tasks[task]])
  }

  // Nothing stands in the way of the run.
  ghost predicate Passable(s: State, run: RC.ActiveRun, tasks: map<string, TaskSpec>, context: Context) {
    && CanGoOn(run.status) && PendingIsOurs(s, run.selected, tasks)
    && AllRunnable(s, run.selected, tasks, context)
  }

  lemma SameAllows(s: State, tasks: map<string, TaskSpec>, task: string, context: Context)
    ensures RowsAllow(s, s, tasks, task, context)
  {
  }

  lemma AllowedStays(s: State, s': State, selected: seq<string>, tasks: map<string, TaskSpec>, task: string,
                     context: Context)
    requires RowsAllow(s, s', tasks, task, context) && AllRunnable(s, selected, tasks, context)
    requires forall t | t in tasks :: tasks[t].contract.taskId == t
    ensures AllRunnable(s', selected, tasks, context)
  {
    forall t | t in selected && t in tasks
      ensures Runnable(s', tasks[t], true, context)
    {
      assert t != task ==> RowAt(s'.rows, t) == RowAt(s.rows, t);
    }
  }

  // Recovery opens no row, and what a row allows stays allowed.
  lemma RecoveredAllows(s: State, s': State, tasks: map<string, TaskSpec>, e: Journal.Entry, context: Context)
    requires Keeps(s, s') && Resolved(s, s', e) && Others(s.rows, s'.rows, e.task)
    requires forall t | t in tasks :: tasks[t].contract.taskId == t
    requires Inv(s) && s.journal == Some(e) && e.task in tasks && Recoverable(s, map[e.task := tasks[e.task]])
    ensures RowsAllow(s, s', tasks, e.task, context)
  {
    JournalAndRow(s, e);
    RemainingCases(s, e);
  }

  predicate NewlyMarked(before: RC.ActiveRun, after: RC.ActiveRun, task: string) {
    task in after.completed && task !in before.completed
  }

  // Storage has committed the completion of the task, and its journal is still there.
  predicate CompletedAndPending(s: State, tasks: map<string, TaskSpec>, task: string) {
    && task in tasks && StorageCompleted(s.rows, task)
    && s.journal.Some? && s.journal.value.task == task && s.journal.value.fingerprint == tasks[task].contract
  }

  predicate Cleanable(s: State, run: RC.ActiveRun, tasks: map<string, TaskSpec>, task: string) {
    CompletedAndPending(s, tasks, task) && task in run.selected
  }

  lemma CompletedAndPendingMeans(s: State, run: RC.ActiveRun, tasks: map<string, TaskSpec>, task: string)
    requires Inv(s)
    ensures CompletedAndPending(s, tasks, task) ==>
              && StorageCompleted(s.rows, task) && s.journal.Some? && s.journal.value.task == task
              && Recoverable(s, map[task := tasks[task]])
    ensures Cleanable(s, run, tasks, task) ==> CompletedAndPending(s, tasks, task) && task in run.selected
  {
    if CompletedAndPending(s, tasks, task) {
      JournalAndRow(s, s.journal.value);
    }
  }

  lemma CleanableStays(s: State, run: RC.ActiveRun, tasks: map<string, TaskSpec>, task: string)
    ensures forall run' | Extends(run, run') && Cleanable(s, run, tasks, task) :: Cleanable(s, run', tasks, task)
  {
  }

  // A journal that is still there was there before.
  lemma StillPending(s: State, s': State, tasks: map<string, TaskSpec>, task: string)
    requires StorageCompleted(s.rows, task)
    ensures s'.journal == s.journal && CompletedAndPending(s', tasks, task) ==> CompletedAndPending(s, tasks, task)
    ensures s'.journal == None ==> !CompletedAndPending(s', tasks, task)
  {
  }

  // A failure before the runner starts is recorded without a journal, by a start and a fail.
  // Both together keep the invariant; a crash between them leaves a running row that no
  // journal names, and no other task can be started over it.
  lemma PreRunnerFailure(s: State, start: Storage.Request, fail: Storage.Request, now: int, later: int)
    requires Inv(s) && s.journal == None
    requires start.Start? && Storage.Step(s.rows, start, now).1.Accepted?
    requires fail.Fail? && fail.task == start.task && fail.attempt == start.attempt && fail.runner == start.runner
    ensures var between := s.(rows := Storage.Step(s.rows, start, now).0);
            var after := s.(rows := Storage.Step(between.rows, fail, later).0);
            && Inv(after) && Keeps(s, after) && !Inv(between)
            && (forall r: Storage.Request | r.Start? && r.task != start.task ::
                  !Storage.Step(between.rows, r, now).1.Accepted?)
  {
    hide Inv, Storage.Step, StorageHistory.Sound, Keeps;
    RowIsIdle(s, start.task);
    var started := StartedRow(s.rows, start, now);
    var failed := FailedRow(s.rows[start.task := started], fail, later);
    var rows' := s.rows[start.task := started][start.task := failed];
    assert rows' == s.rows[start.task := failed];
    StrayRow(s, start.task, started);
    InvIsSound(s);
    StorageHistory.StepAdvances(s.rows, start, now);
    StorageHistory.StepAdvances(s.rows[start.task := started], fail, later);
    FailedRowKeepsInv(s, start.task, failed);
    forall r: Storage.Request | r.Start? && r.task != start.task
      ensures !Storage.Step(s.rows[start.task := started], r, now).1.Accepted?
    {
      RunningRefusesStart(s.rows[start.task := started], start.task, r, now);
    }
  }

  lemma StartedRow(rows: Storage.Db, start: Storage.Request, now: int) returns (row: Storage.Row)
    requires start.Start? && Storage.Step(rows, start, now).1.Accepted?
    requires start.task in rows ==> rows[start.task].status != Storage.Running
    ensures Storage.Step(rows, start, now).0 == rows[start.task := row]
    ensures row.status == Storage.Running && row.attempt == start.attempt && row.runner == Some(start.runner)
    ensures row.conversation == None
    ensures start.task in rows ==>
              && rows[start.task].status == Storage.Failed && row.attempt == rows[start.task].attempt + 1
              && row.fingerprint == rows[start.task].fingerprint && row.logicalId == rows[start.task].logicalId
  {
    row := Storage.Step(rows, start, now).1.row;
  }

  lemma FailedRow(rows: Storage.Db, fail: Storage.Request, now: int) returns (row: Storage.Row)
    requires fail.Fail? && fail.task in rows && rows[fail.task].status == Storage.Running
    requires rows[fail.task].attempt == fail.attempt && rows[fail.task].runner == Some(fail.runner)
    ensures Storage.Step(rows, fail, now).0 == rows[fail.task := row]
    ensures row.status == Storage.Failed && row.attempt == fail.attempt
    ensures row.conversation == rows[fail.task].conversation
    ensures row.fingerprint == rows[fail.task].fingerprint && row.logicalId == rows[fail.task].logicalId
  {
    row := Storage.Step(rows, fail, now).1.row;
  }

  lemma RunningRefusesStart(rows: Storage.Db, task: string, r: Storage.Request, now: int)
    requires task in rows && rows[task].status == Storage.Running && r.Start? && r.task != task
    ensures !Storage.Step(rows, r, now).1.Accepted?
  {
  }

  lemma StrayRow(s: State, task: string, row: Storage.Row)
    requires s.journal == None && row.status == Storage.Running
    ensures !Inv(s.(rows := s.rows[task := row]))
  {
    assert s.rows[task := row][task].status == Storage.Running;
    hide StorageHistory.Sound, AtMostOnce, Accounted, Faithful, Judged, Examined;
  }

  lemma FailedRowKeepsInv(s: State, task: string, row: Storage.Row)
    requires Inv(s) && s.journal == None && StorageHistory.Sound(s.rows[task := row])
    requires row.status == Storage.Failed && row.conversation == None
    requires task in s.rows ==>
               && s.rows[task].status == Storage.Failed && row.attempt == s.rows[task].attempt + 1
               && row.fingerprint == s.rows[task].fingerprint && row.logicalId == s.rows[task].logicalId
    ensures Inv(s.(rows := s.rows[task := row])) && Keeps(s, s.(rows := s.rows[task := row]))
  {
    hide StorageHistory.Sound, Accounted, Over, Traced;
    FailedRowKeepsAccounts(s, task, row);
    UnnamedRowKeepsTrace(s, task, row);
  }

  lemma UnnamedRowKeepsTrace(s: State, task: string, row: Storage.Row)
    requires Traced(s.rows, s.sends, s.posted, s.threads) && row.conversation == None
    ensures Traced(s.rows[task := row], s.sends, s.posted, s.threads)
  {
  }

  lemma FailedRowKeepsAccounts(s: State, task: string, row: Storage.Row)
    requires Accounted(s.journal, s.rows, s.sends, s.transcripts, s.sealed) && row.status == Storage.Failed
    requires task in s.rows ==> row.attempt == s.rows[task].attempt + 1
    ensures Accounted(s.journal, s.rows[task := row], s.sends, s.transcripts, s.sealed)
  {
    assert forall k | Over(s.rows, k) :: Over(s.rows[task := row], k);
  }

  predicate Going(status: RC.RunStatus) {
    status == RC.Running || status == RC.PauseRequested
  }

  // The operations of the loop that do not take a pause.
  predicate Gentle(t: RC.Transition) {
    t.Read? || t.StartTask? || t.FinishTask? || t.RequestPause?
  }

  // Extends is a preorder that keeps the marks; for methods that hide its definition.
  lemma ExtendsChains()
    ensures forall a: RC.ActiveRun :: Extends(a, a)
    ensures forall a: RC.ActiveRun, b: RC.ActiveRun :: Extends(a, b) ==>
              b.selected == a.selected && forall task | task in a.completed :: task in b.completed
    ensures forall a: RC.ActiveRun, b: RC.ActiveRun, c: RC.ActiveRun ::
              Extends(a, b) && Extends(b, c) ==> Extends(a, c)
  {
  }

  predicate AllDone(run: RC.ActiveRun) {
    forall task | task in run.selected :: task in run.completed
  }

  predicate Concludable(run: RC.ActiveRun) {
    Going(run.status) && AllDone(run)
  }

  predicate Proves(proved: set<string>, run: RC.ActiveRun) {
    forall task | task in run.selected :: task in proved
  }

  predicate Extends(before: RC.ActiveRun, after: RC.ActiveRun) {
    && after.runId == before.runId && after.plan == before.plan && after.selected == before.selected
    && before.completed <= after.completed
  }

  lemma KeepsCompleted(s: State, t: State, task: string)
    requires Keeps(s, t) && StorageCompleted(s.rows, task)
    ensures StorageCompleted(t.rows, task)
  {
  }

  lemma KeepsAgree(run: RC.ActiveRun, s: State, t: State)
    requires Agree(run, s.rows) && Keeps(s, t)
    ensures Agree(run, t.rows)
  {
    forall task | StorageCompleted(s.rows, task)
      ensures StorageCompleted(t.rows, task)
    {
    }
  }

  // A store operation, with pauses before and after it, keeps the agreement.
  lemma TransitionKeepsAgree(t: RC.Transition, run: RC.ActiveRun, rows: Storage.Db)
    requires Agree(run, rows)
    requires t.FinishTask? ==> StorageCompleted(rows, t.task)
    requires t.Complete? ==> forall task | task in t.storageCompleted :: StorageCompleted(rows, task)
    ensures Agree(RC.Pause(run), rows)
    ensures RC.Apply(t, run).Some? ==>
              var run' := RC.Apply(t, run).value;
              && Agree(run', rows) && Agree(RC.Pause(run'), rows)
              && Extends(run, run')
  {
    if RC.Apply(t, run).Some? {
      RC.ApplyKeepsFrozen(t, run);
    }
  }

  lemma ServedKeepsAgree(t: RC.Transition, before: RC.ActiveRun, after: RC.ActiveRun,
                         o: Outcome<RC.ActiveRun>, rows: Storage.Db)
    requires Agree(before, rows) && RC.Served(t, before, after, o)
    requires t.FinishTask? ==> StorageCompleted(rows, t.task)
    requires t.Complete? ==> forall task | task in t.storageCompleted :: StorageCompleted(rows, task)
    ensures Agree(after, rows) && Extends(before, after)
    ensures Gentle(t) && Going(before.status) ==> Going(after.status)
    ensures t == RC.Read ==> RC.MaybePaused(before, after)
    ensures o.Done? ==> RC.MaybePaused(o.value, after)
    ensures o.Done? ==> RC.Apply(t, before) == Some(o.value) || RC.Apply(t, RC.Pause(before)) == Some(o.value)
    ensures RC.Apply(t, before).Some? && RC.Apply(t, RC.Pause(before)).Some? ==> o.Done?
  {
    hide Agree;
    TransitionKeepsAgree(t, before, rows);
    TransitionKeepsAgree(t, RC.Pause(before), rows);
  }
}
