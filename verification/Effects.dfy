// The effects a runner can have on the site, each under the guard that keeps the invariant.
// An effect may fail or the process may die in it; the invariant holds either way.
module Effects {
  import opened Basics
  import opened Conversation
  import opened Faults
  import opened Storage
  import opened StorageHistory
  import opened StorageClient
  import opened Journal
  import opened Protocol
  import opened Site

  class Plant {
    const journal: JournalStore
    const service: Repository
    const machines: Machines
    const teacher: Teacher
    const hooked: set<string>
    ghost var transcripts: Transcripts
    ghost var sealed: Candidates
    ghost var graded: set<Grade>
    ghost var verdicts: map<Key, Verdict>
    ghost var deeds: set<(Key, Deed)>

    constructor (hooked: set<string>)
      ensures fresh(Frame()) && this.hooked == hooked
      ensures S() == Blank(hooked)
    {
      this.hooked := hooked;
      journal := new JournalStore();
      service := new Repository();
      machines := new Machines();
      teacher := new Teacher();
      transcripts, sealed, graded, verdicts, deeds := map[], map[], {}, map[], {};
    }

    ghost function Frame(): set<object> {
      {this, journal, service, machines, teacher}
    }

    ghost function S(): State
      reads this, journal, service, machines, teacher
    {
      State(journal.entry, journal.capture, service.rows, machines.live, teacher.sends, teacher.posted, teacher.threads,
            transcripts, sealed, graded, verdicts, deeds, hooked)
    }
  }

  class Hands {
    const plant: Plant
    const client: Client
    const calm: bool     // no fault happens from here on

    constructor (plant: Plant, calm: bool)
      ensures this.plant == plant && this.calm == calm && client.service == plant.service
    {
      this.plant, this.calm := plant, calm;
      client := new Client(plant.service);
    }

    ghost predicate Wired() {
      client.service == plant.service
    }

    ghost function S(): State
      reads plant, plant.journal, plant.service, plant.machines, plant.teacher
    {
      plant.S()
    }

    method Try() returns (o: Outcome<()>)
      ensures calm ==> o.Done?
    {
      o := Interrupt(calm);
    }

    method LoadJournal() returns (o: Outcome<Option<Entry>>)
      ensures o.Done? ==> o.value == S().journal
      ensures calm ==> o.Done?
    {
      o := plant.journal.Load(calm);
    }

    method WriteJournal(e: Entry) returns (o: Outcome<()>)
      requires Inv(S()) && CanWrite(S(), e)
      modifies plant.Frame()
      ensures Inv(S()) && Keeps(old(S()), S())
      ensures S() == old(S()) || S() == AfterWrite(old(S()), e)
      ensures o.Done? ==> S() == AfterWrite(old(S()), e)
      ensures calm ==> o.Done?
    {
      hide Inv, CanWrite, Keeps;
      WriteKeepsInv(S(), e);
      WriteKeeps(S(), e);
      ghost var written := AfterWrite(S(), e);
      o := plant.journal.Write(e, calm);
      if plant.journal.entry == Some(e) {
        plant.transcripts, plant.sealed, plant.deeds := written.transcripts, written.sealed, written.deeds;
        assert S() == written;
      }
    }

    method ClearJournal() returns (o: Outcome<()>)
      requires Inv(S()) && CanClear(S())
      modifies plant.Frame()
      ensures Inv(S()) && Keeps(old(S()), S())
      ensures S() == old(S()) || S() == old(S()).(journal := None)
      ensures o.Done? ==> S().journal == None
      ensures calm ==> o.Done?
    {
      hide Inv;
      ClearKeepsInv(S());
      o := plant.journal.Clear(calm);
    }

    method WriteCapture(captured: Captured, e: Entry) returns (o: Outcome<Digest>)
      requires Inv(S()) && S().journal == Some(e) && !Checkpoint(e.phase)
      modifies plant.Frame()
      ensures Inv(S()) && Keeps(old(S()), S())
      ensures S() == old(S()).(capture := S().capture)
      ensures var file := CaptureFile(e.task, e.attempt, e.runner, e.fingerprint, captured);
              o.Done? ==> S().capture == Some(file) && o.value == Sha256(file)
      ensures calm ==> o.Done?
    {
      hide Inv;
      ghost var s := S();
      o := plant.journal.WriteCapture(captured, e, calm);
      CaptureKeepsInv(s, plant.journal.capture);
      assert S() == s.(capture := plant.journal.capture);
    }

    method LoadCapture(e: Entry) returns (o: Outcome<Captured>)
      ensures o.Done? ==> S().capture.Some? && CaptureIs(S().capture.value, e) && o.value == S().capture.value.captured
      ensures calm && S().capture.Some? && CaptureIs(S().capture.value, e) ==> o.Done?
    {
      o := plant.journal.LoadCapture(e, calm);
    }

    method ClearCapture() returns (o: Outcome<()>)
      requires Inv(S()) && S().journal == None
      modifies plant.Frame()
      ensures Inv(S()) && Keeps(old(S()), S())
      ensures S() == old(S()).(capture := S().capture)
      ensures o.Done? ==> S().capture == None
      ensures calm ==> o.Done?
    {
      hide Inv;
      ghost var s := S();
      o := plant.journal.ClearCapture(calm);
      CaptureKeepsInv(s, plant.journal.capture);
      assert S() == s.(capture := plant.journal.capture);
    }

    method GetRow(task: string) returns (o: Outcome<Option<Row>>)
      requires Wired()
      ensures o.Done? ==> o.value == if task in S().rows then Some(S().rows[task]) else None
      ensures calm ==> o.Done?
    {
      o := client.Get(task, calm);
    }

    // One storage request of the journal's attempt.
    method Request(r: Request) returns (o: Outcome<Row>)
      requires Wired() && Inv(S()) && CanRequest(S(), r)
      modifies plant.Frame()
      ensures Inv(S()) && Keeps(old(S()), S())
      ensures S() == old(S()) || Took(old(S()), r, S())
      ensures o.Done? ==> r.task in S().rows && S().rows[r.task] == o.value
                          && (S() == old(S()) ==> Step(old(S()).rows, r, 0) == (old(S()).rows, Accepted(o.value)))
      ensures o.Done? ==> Step(old(S()).rows, r, 0).1.Accepted?
      ensures o == Raised(StorageConflict) ==> S() == old(S())
      ensures calm && Step(old(S()).rows, r, 0).1.Accepted? ==> o.Done?
      ensures calm && !Step(old(S()).rows, r, 0).1.Accepted? ==> o.Raised? && S() == old(S())
      ensures o.Raised? ==> IsStorageError(o.exn) || o.exn == Cancelled
      ensures calm && Step(old(S()).rows, r, 0).1 == Conflict ==> o == Raised(StorageConflict)
    {
      hide Inv, CanRequest, RowEffect, Step, Keeps, Sound, Took;
      ghost var s := S();
      ghost var now: int;
      InvIsSound(s);
      ghost var sent;
      o, now, sent := client.Call(r, calm);
      ServedKeepsInv(s, r, now, plant.service.rows);
      VerdictIsTimeless(s.rows, r, now, 0);
      assert S() == s.(rows := plant.service.rows);
    }

    method PrepareVm(e: Entry) returns (o: Outcome<()>)
      requires Inv(S()) && S().journal == Some(e)
      modifies plant.Frame()
      ensures Inv(S()) && Keeps(old(S()), S())
      ensures S() == old(S()).(live := S().live)
      ensures S().live == old(S()).live || (e.fingerprint.workstation && S().live == old(S()).live + {VmOf(e)})
      ensures o.Done? ==> VmReady(S(), e)
      ensures o.Done? ==> !VmRefused(old(S()), e)
      ensures calm && !VmRefused(old(S()), e) ==> o.Done?
      ensures o.Raised? ==> !IsStorageError(o.exn)
      ensures calm ==> !o.Killed?
      ensures calm && !o.Done? ==> S() == old(S())
    {
      hide Inv, Keeps;
      KeepsChains();
      ghost var s := S();
      ghost var made, undone;
      o, made, undone := plant.machines.Prepare(VmOf(e), calm);
      if plant.machines.live != s.live {
        CreateKeepsInv(s);
        assert S() == s.(live := s.live + {VmOf(e)});
      } else {
        assert S() == s;
      }
    }

    method AssertResume(e: Entry) returns (o: Outcome<()>)
      ensures o.Done? ==> VmReady(S(), e)
      ensures calm && VmReady(S(), e) ==> o.Done?
      ensures o.Raised? ==> !IsStorageError(o.exn)
      ensures calm ==> !o.Killed?
    {
      o := plant.machines.Discover(VmOf(e), calm);
    }

    method ResetVm(e: Entry) returns (o: Outcome<()>)
      requires Inv(S()) && S().journal.Some? && SameAttempt(S().journal.value, e) && CanDestroy(S())
      modifies plant.Frame()
      ensures Inv(S()) && Keeps(old(S()), S())
      ensures S() == old(S()).(live := S().live)
      ensures S().live == old(S()).live || S().live == old(S()).live - {VmOf(e)}
      ensures o.Done? ==> VmOf(e) !in S().live
      ensures calm ==> o.Done?
    {
      hide Inv, Keeps, CanDestroy;
      ghost var s := S();
      Destroyed(s, e);
      o := plant.machines.Destroy(VmOf(e), calm);
      if plant.machines.live != s.live {
        assert S() == s.(live := s.live - {VmOf(e)});
      } else {
        assert S() == s;
      }
    }

    method Send(e: Entry) returns (o: Outcome<()>)
      requires Inv(S()) && S().journal == Some(e) && CanSend(S())
      modifies plant.Frame()
      ensures Inv(S()) && Keeps(old(S()), S())
      ensures S() == old(S()) || Sent(old(S()), S(), KeyOf(e))
      ensures o.Done? ==> Sent(old(S()), S(), KeyOf(e))
      ensures calm ==> o.Done?
    {
      hide Inv, Keeps;
      KeepsChains();
      ghost var s := S();
      ghost var id;
      o, id := plant.teacher.ClickSend(KeyOf(e), calm);
      SendKeepsInv(s, id);
      SendKeeps(s, KeyOf(e), id);
      assert S() == s.(sends := plant.teacher.sends, posted := plant.teacher.posted);
    }

    method PostedMessage(e: Entry) returns (o: Outcome<string>)
      requires KeyOf(e) in S().posted
      ensures o.Done? ==> o.value == S().posted[KeyOf(e)]
      ensures calm ==> o.Done?
    {
      o := plant.teacher.UserMessageId(KeyOf(e), calm);
    }

    method FindConversation(message: string) returns (o: Outcome<string>)
      requires Inv(S())
      modifies plant.Frame()
      ensures Inv(S()) && Keeps(old(S()), S()) && S() == old(S()).(threads := S().threads)
      ensures o.Done? ==> Shown(S(), o.value, message)
      ensures calm ==> o.Done?
    {
      hide Inv;
      ghost var s := S();
      o := plant.teacher.ConversationId(message, calm);
      ThreadsKeepInv(s, plant.teacher.threads);
      assert S() == s.(threads := plant.teacher.threads);
    }

    method ReadBack(conversation: string, message: string) returns (o: Outcome<Captured>)
      requires Inv(S())
      modifies plant.Frame()
      ensures Inv(S()) && Keeps(old(S()), S()) && S() == old(S()).(threads := S().threads)
      ensures o.Done? ==> Shown(S(), o.value.conversation, message)
      ensures o.Done? && !IsTransient(conversation) ==> o.value.conversation == conversation
      ensures calm && Shown(old(S()), conversation, message) ==> o.Done?
    {
      hide Inv;
      ghost var s := S();
      o := plant.teacher.Recover(conversation, message, calm);
      ThreadsKeepInv(s, plant.teacher.threads);
      assert S() == s.(threads := plant.teacher.threads);
    }

    method AwaitSnapshot(conversation: string, message: string) returns (o: Outcome<Captured>)
      ensures o.Done? ==> o.value.conversation == conversation
      ensures calm && Shown(S(), conversation, message) ==> o.Done?
    {
      o := plant.teacher.Snapshot(conversation, message, calm);
    }

    // Runtime hooks prepare the benchmark.
    method PrepareBenchmark(ghost e: Entry) returns (o: Outcome<()>)
      requires Inv(S()) && S().journal == Some(e) && CanPrepare(S())
      modifies plant`deeds
      ensures Inv(S()) && Keeps(old(S()), S())
      ensures S() == if o.Done? then old(S()).(deeds := old(S()).deeds + {(KeyOf(e), Prepared)}) else old(S())
      ensures calm ==> o.Done?
    {
      hide Inv, Keeps;
      KeepsChains();
      ghost var s := S();
      var _ :- Try();
      PrepareKeepsInv(s);
      plant.deeds := plant.deeds + {(KeyOf(e), Prepared)};
      assert S() == s.(deeds := plant.deeds);
      return Done(());
    }

    // The evaluator of the attempt returns its verdict, or None when there is no evaluator.
    method Evaluate(ghost e: Entry, captured: Captured) returns (o: Outcome<Option<Evaluation>>)
      requires Inv(S()) && IsRunning(S(), e)
      modifies plant`verdicts
      ensures Inv(S()) && Keeps(old(S()), S())
      ensures S() == if o.Done? then old(S()).(verdicts := old(S()).verdicts[KeyOf(e) := Verdict(captured, o.value)])
                     else old(S())
      ensures o.Done? ==> EvaluationValid(o.value)
      ensures calm ==> o.Done?
    {
      hide Inv;
      ghost var s := S();
      var _ :- Try();
      assert EvaluationValid(None);
      var result: Option<Evaluation> :| EvaluationValid(result);   // pass, fail, or no evaluator
      JudgeKeepsInv(s, e, Verdict(captured, result));
      plant.verdicts := plant.verdicts[KeyOf(e) := Verdict(captured, result)];
      assert S() == s.(verdicts := plant.verdicts);
      return Done(result);
    }

    // The candidate the evaluator is given is put on record when the evaluator runs.
    ghost method Grading(e: Entry, candidate: Candidate, captured: Captured)
      requires Inv(S()) && S().journal == Some(e) && CanGrade(S(), candidate, captured)
      modifies plant`graded
      ensures Inv(S()) && Keeps(old(S()), S())
      ensures S() == old(S()).(graded := old(S()).graded + {Grade(KeyOf(e), candidate, captured)})
    {
      hide Inv;
      var s := S();
      GradeKeepsInv(s, candidate, captured);
      plant.graded := plant.graded + {Grade(KeyOf(e), candidate, captured)};
      assert S() == s.(graded := plant.graded);
    }
  }

  lemma Destroyed(s: State, e: Entry)
    requires Inv(s) && s.journal.Some? && SameAttempt(s.journal.value, e) && CanDestroy(s)
    ensures Inv(s.(live := s.live - {VmOf(e)})) && Keeps(s, s.(live := s.live - {VmOf(e)})) && Keeps(s, s)
    ensures !e.fingerprint.workstation ==> VmOf(e) !in s.live
  {
    DestroyKeepsInv(s);
    assert WriteAhead(s.journal, s.rows, s.live);
    hide Inv;
  }

  // The default image refuses an attempt that already has a VM.
  predicate VmRefused(s: State, e: Entry) {
    e.fingerprint.workstation && !e.fingerprint.template && VmOf(e) in s.live
  }

  // One prompt more went out, under an id of its own.
  ghost predicate Sent(s: State, s': State, k: Key) {
    && k in s'.posted && s'.posted == s.posted[k := s'.posted[k]]
    && s' == s.(sends := s.sends + multiset{k}, posted := s'.posted)
  }

  // A durable conversation with this user message and no other.
  predicate Shown(s: State, conversation: string, message: string) {
    !IsTransient(conversation) && conversation in s.threads && s.threads[conversation] == message
  }

  // The request changed the row of its task, and nothing else.
  ghost predicate Took(s: State, r: Request, s': State) {
    r.task in s'.rows && s' == s.(rows := s.rows[r.task := s'.rows[r.task]]) && RowEffect(s, r, s'.rows[r.task])
  }

  lemma ServedKeepsInv(s: State, r: Request, now: int, rows: Db)
    requires Inv(s) && CanRequest(s, r)
    requires rows == s.rows || rows == Step(s.rows, r, now).0
    ensures Inv(s.(rows := rows)) && Keeps(s, s.(rows := rows))
    ensures s.(rows := rows) == s || Took(s, r, s.(rows := rows))
  {
    hide Inv, CanRequest, RowEffect, Step;
    RequestKeepsInv(s, r, now);
    RequestEffect(s, r, now);
  }

  lemma InvIsSound(s: State)
    requires Inv(s)
    ensures Sound(s.rows)
  {
  }
}
