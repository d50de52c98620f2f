// Crash states that recovery refuses, each reached by a sequence of effects.
module Crashes {
  import opened Basics
  import opened Benchmark
  import opened Storage
  import opened Journal
  import opened Protocol
  import opened Effects
  import opened Recovery

  // One effect that took place; the process may die after any of them.
  datatype Effect = Write(e: Entry) | Ask(r: Request) | Create | Click(id: string) | Clear

  ghost predicate Allowed(s: State, x: Effect) {
    match x
    case Write(e) => CanWrite(s, e)
    case Ask(r) => CanRequest(s, r)
    case Create => s.journal.Some? && s.journal.value.phase == Starting && s.journal.value.fingerprint.workstation
    case Click(id) => CanSend(s) && id != "" && forall k | k in s.posted :: s.posted[k] != id
    case Clear => CanClear(s)
  }

  function After(s: State, x: Effect): State {
    match x
    case Write(e) => AfterWrite(s, e)
    case Ask(r) => s.(rows := Step(s.rows, r, 0).0)
    case Create => if s.journal.Some? then s.(live := s.live + {VmOf(s.journal.value)}) else s
    case Click(id) =>
      if s.journal.None? then s
      else
        var k := KeyOf(s.journal.value);
        s.(sends := s.sends + multiset{k}, posted := s.posted[k := id])
    case Clear => s.(journal := None)
  }

  // The effects, each under its guard, lead from nothing to the last state of the trace.
  ghost predicate Leads(hooked: set<string>, effects: seq<Effect>, trace: seq<State>) {
    && |trace| == |effects| + 1 && trace[0] == Blank(hooked)
    && forall i | 0 <= i < |effects| :: Allowed(trace[i], effects[i]) && trace[i + 1] == After(trace[i], effects[i])
  }

  lemma AllowedKeepsInv(s: State, x: Effect)
    requires Inv(s) && Allowed(s, x)
    ensures Inv(After(s, x))
  {
    hide Inv, CanWrite, CanRequest, CanClear, Step;
    match x
    case Write(e) => WriteKeepsInv(s, e);
    case Ask(r) => RequestKeepsInv(s, r, 0);
    case Create => CreateKeepsInv(s);
    case Click(id) => SendKeepsInv(s, id);
    case Clear => ClearKeepsInv(s);
  }

  lemma {:induction false} LeadsInside(hooked: set<string>, effects: seq<Effect>, trace: seq<State>, i: nat)
    requires Leads(hooked, effects, trace) && i < |trace|
    ensures Inv(trace[i])
  {
    hide Inv, Allowed, After;
    if i == 0 {
      BlankIsSound(hooked);
    } else {
      LeadsInside(hooked, effects, trace, i - 1);
      AllowedKeepsInv(trace[i - 1], effects[i - 1]);
    }
  }

  // ---------------------------------------------------------------- the first steps of an attempt

  predicate Small(c: Contract) {
    c.taskId == "t" && c.apps == {}
  }

  function At(c: Contract, attempt: nat, phase: Phase): Entry {
    Entry("t", "r", attempt, phase, c, map[], None, None, None, None, None)
  }

  function StartOf(c: Contract, attempt: nat): Request {
    Start("t", None, "r", attempt, c, map[], "{}")
  }

  const FAIL := Fail("t", "RuntimeError", "the composer is missing", 1, "r")

  // The phases of the first attempt up to this one, without hooks.
  function Upto(phase: Phase): set<(Key, Deed)> {
    set p: Phase | Rank(p) <= Rank(phase) && !Benchmarking(p) :: (Key("t", 1), Wrote(p))
  }

  function Pending(c: Contract, hooked: set<string>): State {
    Blank(hooked).(journal := Some(At(c, 1, Starting)), deeds := Upto(Starting))
  }

  function Started(c: Contract, hooked: set<string>): State {
    Pending(c, hooked).(rows := map["t" := FirstRow(StartOf(c, 1), 0)])
  }

  lemma Begins(c: Contract, hooked: set<string>)
    requires Small(c)
    ensures var e := At(c, 1, Starting);
            && Allowed(Blank(hooked), Write(e)) && After(Blank(hooked), Write(e)) == Pending(c, hooked)
            && Allowed(Pending(c, hooked), Ask(StartOf(c, 1)))
            && After(Pending(c, hooked), Ask(StartOf(c, 1))) == Started(c, hooked)
  {
    assert Blank(hooked).rows["t" := FirstRow(StartOf(c, 1), 0)] == map["t" := FirstRow(StartOf(c, 1), 0)];
  }

  // ---------------------------------------------------------------- starting, under hooks

  // The process died between the journal and the row.
  lemma HookedWithoutRow(c: Contract) returns (effects: seq<Effect>, trace: seq<State>, e: Entry)
    requires Small(c)
    ensures Leads({"t"}, effects, trace)
    ensures var s := trace[|effects|];
            s.journal == Some(e) && e.phase == Starting && NoRow(s, e) && Hooked(s, e) && Stuck(s, e)
  {
    Begins(c, {"t"});
    e := At(c, 1, Starting);
    effects, trace := [Write(e)], [Blank({"t"}), Pending(c, {"t"})];
  }

  // The process died after the VM was created, and the default image is not created twice.
  lemma HookedWithVm(c: Contract) returns (effects: seq<Effect>, trace: seq<State>, e: Entry)
    requires Small(c) && c.workstation && !c.template
    ensures Leads({"t"}, effects, trace)
    ensures var s := trace[|effects|];
            s.journal == Some(e) && IsRunning(s, e) && VmRefused(s, e) && Stuck(s, e)
  {
    Begins(c, {"t"});
    e := At(c, 1, Starting);
    var s := Started(c, {"t"});
    effects := [Write(e), Ask(StartOf(c, 1)), Create];
    trace := [Blank({"t"}), Pending(c, {"t"}), s, After(s, Create)];
  }

  // ---------------------------------------------------------------- starting over a failed attempt

  function Failed1(c: Contract): State {
    var row := FirstRow(StartOf(c, 1), 0);
    Started(c, {}).(rows := map["t" := row.(status := Failed, evaluation := None,
                                             error := Some(("RuntimeError", "the composer is missing")))])
  }

  // The first attempt failed before Send and was closed; the process died after it journaled
  // the second one.
  lemma OverFailed(c: Contract) returns (effects: seq<Effect>, trace: seq<State>, e: Entry)
    requires Small(c)
    ensures Leads({}, effects, trace)
    ensures var s := trace[|effects|];
            s.journal == Some(e) && e.phase == Starting && PreviousFailed(s, e) && Stuck(s, e)
  {
    hide Allowed, After, Started, Pending, Stuck, Failed1, Again;
    Begins(c, {});
    FirstFails(c);
    AgainIsStuck(c);
    e := At(c, 2, Starting);
    var s := Failed1(c);
    effects := [Write(At(c, 1, Starting)), Ask(StartOf(c, 1)), Ask(FAIL), Clear, Write(e)];
    trace := [Blank({}), Pending(c, {}), Started(c, {}), s, s.(journal := None), Again(c)];
  }

  lemma AgainIsStuck(c: Contract)
    requires Small(c)
    ensures var s, e := Again(c), At(c, 2, Starting);
            s.journal == Some(e) && e.phase == Starting && PreviousFailed(s, e) && Stuck(s, e)
  {
  }

  // The second attempt is journaled.
  function Again(c: Contract): State {
    AfterWrite(Failed1(c), At(c, 2, Starting))
  }

  lemma FirstFails(c: Contract)
    requires Small(c)
    ensures Allowed(Started(c, {}), Ask(FAIL)) && After(Started(c, {}), Ask(FAIL)) == Failed1(c)
    ensures Allowed(Failed1(c), Clear) && After(Failed1(c), Clear) == Failed1(c).(journal := None)
    ensures var s, e := Failed1(c).(journal := None), At(c, 2, Starting);
            Allowed(s, Write(e)) && After(s, Write(e)) == Again(c)
  {
    assert Started(c, {}).rows["t" := Failed1(c).rows["t"]] == Failed1(c).rows;
  }

  // ---------------------------------------------------------------- an unnamed submission

  function Standing(c: Contract, phase: Phase): State {
    Started(c, {}).(journal := Some(At(c, 1, phase)), deeds := Upto(phase))
  }

  // The prompt went out, and the process died before it had read the id of its message.
  lemma UnnamedSubmission(c: Contract) returns (effects: seq<Effect>, trace: seq<State>, e: Entry)
    requires Small(c) && !c.workstation
    ensures Leads({}, effects, trace)
    ensures var s := trace[|effects|];
            && s.journal == Some(e) && e.phase == SubmissionStarted && e.userMessage == None
            && KeyOf(e) in s.sends && Stuck(s, e)
  {
    hide Allowed, After, Standing, Started, Pending, Stuck;
    Begins(c, {});
    AppsAreWritten(c);
    e := At(c, 1, SubmissionStarted);
    effects := [Write(At(c, 1, Starting)), Ask(StartOf(c, 1)), Write(At(c, 1, AppsPrepared)),
                Write(At(c, 1, ComposerDirty)), Write(e), Click("m")];
    trace := [Blank({}), Pending(c, {}), Started(c, {}), Standing(c, AppsPrepared), Standing(c, ComposerDirty),
              Standing(c, SubmissionStarted), After(Standing(c, SubmissionStarted), Click("m"))];
    ComposerIsWritten(c);
    Submits(c);
    SubmittedIsStuck(c);
  }

  lemma SubmittedIsStuck(c: Contract)
    requires Small(c) && !c.workstation
    ensures var s, e := After(Standing(c, SubmissionStarted), Click("m")), At(c, 1, SubmissionStarted);
            s.journal == Some(e) && KeyOf(e) in s.sends && Stuck(s, e)
  {
  }

  lemma AppsAreWritten(c: Contract)
    requires Small(c) && !c.workstation
    ensures var s, e := Started(c, {}), At(c, 1, AppsPrepared);
            Allowed(s, Write(e)) && After(s, Write(e)) == Standing(c, AppsPrepared)
  {
  }

  lemma ComposerIsWritten(c: Contract)
    requires Small(c) && !c.workstation
    ensures var s, e := Standing(c, AppsPrepared), At(c, 1, ComposerDirty);
            Allowed(s, Write(e)) && After(s, Write(e)) == Standing(c, ComposerDirty)
  {
  }

  lemma Submits(c: Contract)
    requires Small(c) && !c.workstation
    ensures var s, e := Standing(c, ComposerDirty), At(c, 1, SubmissionStarted);
            && Allowed(s, Write(e)) && After(s, Write(e)) == Standing(c, SubmissionStarted)
            && Allowed(Standing(c, SubmissionStarted), Click("m"))
  {
  }
}
