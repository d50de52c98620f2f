// The durable submission journal and the capture file beside it.
module Journal {
  import opened Basics
  import opened Benchmark
  import opened Faults
  import opened Storage

  datatype Phase =
    | Starting
    | AppsPrepared
    | BenchmarkPreparing
    | BenchmarkReady
    | ComposerDirty
    | SubmissionStarted
    | ConversationKnown
    | ConversationCheckpointed
    | CandidateCheckpointed
    | CleanupPending

  function Rank(p: Phase): nat {
    match p
    case Starting => 0
    case AppsPrepared => 1
    case BenchmarkPreparing => 2
    case BenchmarkReady => 3
    case ComposerDirty => 4
    case SubmissionStarted => 5
    case ConversationKnown => 6
    case ConversationCheckpointed => 7
    case CandidateCheckpointed => 8
    case CleanupPending => 9
  }

  type Candidate = Json

  datatype Captured = Captured(conversation: string, messages: seq<Json>, metadata: Json)

  datatype CaptureFile = CaptureFile(
    task: string,
    attempt: nat,
    runner: string,
    fingerprint: Contract,
    captured: Captured)

  // An ideal hash of the capture file.
  datatype Digest = Sha256(file: CaptureFile)

  datatype Entry = Entry(
    task: string,
    runner: string,
    attempt: nat,
    phase: Phase,
    fingerprint: Contract,
    names: Names,
    conversation: Option<string>,
    userMessage: Option<string>,
    digest: Option<Digest>,
    candidate: Option<Candidate>,
    evaluator: Option<Json>)

  predicate Checkpoint(p: Phase) {
    p == ConversationCheckpointed || p == CandidateCheckpointed
  }

  predicate CaptureIs(file: CaptureFile, e: Entry) {
    && e.digest == Some(Sha256(file))
    && file.task == e.task && file.attempt == e.attempt && file.runner == e.runner
    && file.fingerprint == e.fingerprint && e.conversation == Some(file.captured.conversation)
  }

  class JournalStore {
    var entry: Option<Entry>
    var capture: Option<CaptureFile>

    constructor ()
      ensures entry == None && capture == None
    {
      entry, capture := None, None;
    }

    method Load(calm: bool) returns (o: Outcome<Option<Entry>>)
      ensures o.Done? ==> o.value == entry
      ensures calm ==> o.Done?
    {
      var _ :- Interrupt(calm);
      return Done(entry);
    }

    // Written to a temporary file, synced, then moved over the journal: all or nothing.
    method Write(e: Entry, calm: bool) returns (o: Outcome<()>)
      modifies this`entry
      ensures entry == old(entry) || entry == Some(e)
      ensures o.Done? ==> entry == Some(e)
      ensures calm ==> o.Done?
    {
      var _ :- Interrupt(calm);   // temporary file, flush, fsync
      entry := Some(e);           // os.replace
      var _ :- Interrupt(calm);   // fsync of the directory
      return Done(());
    }

    method Clear(calm: bool) returns (o: Outcome<()>)
      modifies this`entry
      ensures entry == old(entry) || entry == None
      ensures o.Done? ==> entry == None
      ensures calm ==> o.Done?
    {
      var _ :- Interrupt(calm);
      if entry.None? {
        return Done(());
      }
      entry := None;
      var _ :- Interrupt(calm);
      return Done(());
    }

    method WriteCapture(captured: Captured, e: Entry, calm: bool) returns (o: Outcome<Digest>)
      modifies this`capture
      ensures var file := CaptureFile(e.task, e.attempt, e.runner, e.fingerprint, captured);
              && (capture == old(capture) || capture == Some(file))
              && (o.Done? ==> capture == Some(file) && o.value == Sha256(file))
      ensures calm ==> o.Done?
    {
      var file := CaptureFile(e.task, e.attempt, e.runner, e.fingerprint, captured);
      var _ :- Interrupt(calm);
      capture := Some(file);
      var _ :- Interrupt(calm);
      return Done(Sha256(file));
    }

    method LoadCapture(e: Entry, calm: bool) returns (o: Outcome<Captured>)
      ensures o.Done? ==> capture.Some? && CaptureIs(capture.value, e) && o.value == capture.value.captured
      ensures calm && capture.Some? && CaptureIs(capture.value, e) ==> o.Done?
    {
      var _ :- Interrupt(calm);
      if capture.None? || Some(Sha256(capture.value)) != e.digest {
        return Raised(RecoveryIncomplete);
      }
      var data := capture.value;
      if data.task != e.task || data.attempt != e.attempt || data.runner != e.runner
         || data.fingerprint != e.fingerprint || Some(data.captured.conversation) != e.conversation {
        return Raised(RecoveryIncomplete);
      }
      return Done(data.captured);
    }

    method ClearCapture(calm: bool) returns (o: Outcome<()>)
      modifies this`capture
      ensures capture == old(capture) || capture == None
      ensures o.Done? ==> capture == None
      ensures calm ==> o.Done?
    {
      var _ :- Interrupt(calm);
      capture := None;
      var _ :- Interrupt(calm);
      return Done(());
    }
  }
}
