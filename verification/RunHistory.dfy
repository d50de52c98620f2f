// What the control file says after any history of transitions.
module RunHistory {
  import opened Basics
  import opened RunControl

  // The file after a sequence of transitions; a refused one changes nothing.
  ghost function After(run: ActiveRun, ts: seq<Transition>): ActiveRun
    decreases |ts|
  {
    if ts == [] then run
    else
      var before := After(run, ts[..|ts| - 1]);
      var next := Apply(ts[|ts| - 1], before);
      if next.Some? then next.value else before
  }

  // At this point the run is confirmed as running, or completed: its troubles are over.
  ghost predicate Clears(run: ActiveRun, ts: seq<Transition>, j: nat) {
    j < |ts| &&
    var before := After(run, ts[..j]);
    (ts[j].ConfirmRunning? && Active(before.status)) || (ts[j].Complete? && Finished(before, ts[j].storageCompleted))
  }

  predicate Finished(run: ActiveRun, storageCompleted: set<string>) {
    forall task | task in run.selected :: task in run.completed && task in storageCompleted
  }

  // A deferral that nothing has cleared since.
  ghost predicate Defers(run: ActiveRun, ts: seq<Transition>, i: nat) {
    i < |ts| && ts[i].DeferRateLimit? && forall j: nat | i < j < |ts| :: !Clears(run, ts, j)
  }

  // An incident report that nothing has cleared since.
  ghost predicate Reports(run: ActiveRun, ts: seq<Transition>, i: nat) {
    i < |ts| && (ts[i].Intervention? || ts[i].PausedError?) && forall j: nat | i < j < |ts| :: !Clears(run, ts, j)
  }

  function Report(t: Transition): (string, string, string)
    requires t.Intervention? || t.PausedError?
  {
    (t.reason, t.kind, t.message)
  }

  // The start of a task that took effect, and is not over.
  ghost predicate Starts(run: ActiveRun, ts: seq<Transition>, i: nat) {
    && i < |ts| && ts[i].StartTask?
    && var before := After(run, ts[..i]);
       before.status != PauseRequested && ts[i].task in before.selected
  }

  ghost predicate Ends(run: ActiveRun, ts: seq<Transition>, task: string, j: nat) {
    && j < |ts|
    && var before := After(run, ts[..j]);
       || (ts[j] == FinishTask(task) && task in before.selected)
       || (ts[j].PauseIfRequested? && before.status == PauseRequested)
       || (ts[j].Complete? && Finished(before, ts[j].storageCompleted))
       || Starts(run, ts, j)
  }

  // The task is under way since then.
  ghost predicate UnderWay(run: ActiveRun, ts: seq<Transition>, task: string, i: nat) {
    Starts(run, ts, i) && ts[i].task == task && forall j: nat | i < j < |ts| :: !Ends(run, ts, task, j)
  }

  // What happened before is not changed by what comes after.
  lemma Prefix(run: ActiveRun, ts: seq<Transition>, n: nat)
    requires |ts| == n + 1
    ensures forall j: nat | j < n :: Clears(run, ts, j) == Clears(run, ts[..n], j)
    ensures forall j: nat | j < n :: Starts(run, ts, j) == Starts(run, ts[..n], j)
    ensures forall j: nat, task | j < n :: Ends(run, ts, task, j) == Ends(run, ts[..n], task, j)
    ensures forall j: nat | j < n :: Defers(run, ts, j) <==> Defers(run, ts[..n], j) && !Clears(run, ts, n)
    ensures forall j: nat | j < n :: Reports(run, ts, j) <==> Reports(run, ts[..n], j) && !Clears(run, ts, n)
  {
    hide Apply, Finished, Active;
    assert forall j: nat | j <= n :: ts[..n][..j] == ts[..j];
    assert forall j: nat | j < n :: Starts(run, ts, j) == Starts(run, ts[..n], j);
    assert forall j: nat | j < n :: Clears(run, ts, j) == Clears(run, ts[..n], j);
  }

  // The time stored at the end is the latest of the deferrals since the run was last cleared.
  lemma {:induction false} DeferredToTheLatest(run: ActiveRun, ts: seq<Transition>)
    requires run.retryNotBefore.None?
    ensures var end := After(run, ts).retryNotBefore;
            && (end.Some? <==> exists i: nat :: Defers(run, ts, i))
            && (forall i: nat | Defers(run, ts, i) :: end.Some? && end.value >= ts[i].notBefore)
            && (end.Some? && end.value != 0.0 ==> exists i: nat :: Defers(run, ts, i) && end.value == ts[i].notBefore)
    decreases |ts|
  {
    if ts != [] {
      var n := |ts| - 1;
      DeferredToTheLatest(run, ts[..n]);
      Prefix(run, ts, n);
      if ts[n].DeferRateLimit? {
        assert Defers(run, ts, n);
      }
    }
  }

  // The incident at the end is the last one reported, unless the run has been cleared since.
  lemma {:induction false} IncidentIsTheLast(run: ActiveRun, ts: seq<Transition>)
    requires run.incident.None?
    ensures var end := After(run, ts).incident;
            && (end.Some? <==> exists i: nat :: Reports(run, ts, i))
            && forall i: nat | Reports(run, ts, i) && forall j: nat :: Reports(run, ts, j) ==> j <= i ::
                 end == Some(Report(ts[i]))
    decreases |ts|
  {
    if ts != [] {
      var n := |ts| - 1;
      IncidentIsTheLast(run, ts[..n]);
      hide Apply, Clears, After;
      Prefix(run, ts, n);
      IncidentAfter(run, ts, n);
      if ts[n].Intervention? || ts[n].PausedError? {
        assert Reports(run, ts, n);
      } else {
        assert forall i: nat :: Reports(run, ts, i) <==> Reports(run, ts[..n], i) && !Clears(run, ts, n);
      }
    }
  }

  lemma IncidentAfter(run: ActiveRun, ts: seq<Transition>, n: nat)
    requires |ts| == n + 1
    ensures After(run, ts).incident ==
            if ts[n].Intervention? || ts[n].PausedError? then Some(Report(ts[n]))
            else if Clears(run, ts, n) then None
            else After(run, ts[..n]).incident
    ensures ts[n].Intervention? || ts[n].PausedError? ==> !Clears(run, ts, n)
  {
  }

  // The marks are the selected tasks that were finished.
  lemma {:induction false} MarksAreFinished(run: ActiveRun, ts: seq<Transition>, task: string)
    requires run.completed == []
    ensures After(run, ts).selected == run.selected
    ensures task in After(run, ts).completed <==> task in run.selected && FinishTask(task) in ts
    decreases |ts|
  {
    if ts != [] {
      var n := |ts| - 1;
      assert ts == ts[..n] + [ts[n]];
      MarksAreFinished(run, ts[..n], task);
    }
  }

  // The current task is the one that was started last and has not ended.
  lemma {:induction false} CurrentIsTheLastStarted(run: ActiveRun, ts: seq<Transition>, task: string)
    requires run.current.None?
    ensures After(run, ts).current == Some(task) <==>
              exists i: nat :: UnderWay(run, ts, task, i)
    decreases |ts|
  {
    hide Apply, Starts, Ends, UnderWay;
    if ts == [] {
      NothingUnderWay(run, task);
    } else {
      var n := |ts| - 1;
      CurrentIsTheLastStarted(run, ts[..n], task);
      CurrentAfter(run, ts, task, n);
      UnderWayAfter(run, ts, task, n);
      var now := UnderWay(run, ts, task, n);
    }
  }

  lemma NothingUnderWay(run: ActiveRun, task: string)
    ensures forall i: nat :: !UnderWay(run, [], task, i)
  {
  }

  lemma UnderWayAfter(run: ActiveRun, ts: seq<Transition>, task: string, n: nat)
    requires |ts| == n + 1
    ensures forall i: nat :: UnderWay(run, ts, task, i) <==>
              || (UnderWay(run, ts[..n], task, i) && !Ends(run, ts, task, n))
              || (i == n && Starts(run, ts, n) && ts[n].task == task)
  {
    hide Ends, After;
    Prefix(run, ts, n);
  }

  lemma CurrentAfter(run: ActiveRun, ts: seq<Transition>, task: string, n: nat)
    requires |ts| == n + 1
    ensures After(run, ts).current == Some(task) <==>
              if Starts(run, ts, n) then ts[n].task == task
              else After(run, ts[..n]).current == Some(task) && !Ends(run, ts, task, n)
    ensures Starts(run, ts, n) ==> Ends(run, ts, task, n)
  {
  }
}
