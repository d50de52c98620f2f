// Artifacts on their way between the runner and a guest: the runner's provider, the broker's
// artifact store, and the guest's import session.
module Transfer {
  import opened Basics

  const CHUNK := 1048576
  const MAX_FILE := 67108864          // what the guest accepts
  const MAX_PROVIDER := 268435456     // what the provider accepts

  // An ideal hash.
  datatype Digest = Sha256(bytes: seq<Byte>)

  // Which faults can happen: errors of the guest's file system, and messages between
  // broker and guest that are lost.
  datatype Faults = Faults(io: bool, loss: bool)

  method Risk(allowed: bool) returns (o: Outcome<()>)
    ensures o == Done(()) || (allowed && o == Raised(Infrastructure))
  {
    var fails: bool := *;
    return if allowed && fails then Raised(Infrastructure) else Done(());
  }

  function Least(a: nat, b: nat): nat {
    if a < b then a else b
  }

  function Slice(data: seq<Byte>, offset: nat): seq<Byte>
    requires offset <= |data|
  {
    data[offset..offset + Least(CHUNK, |data| - offset)]
  }

  // ---------------------------------------------------------------- the guest

  class Guest {
    const resolve: string -> Option<string>    // the guest path a name stands for; None if invalid
    const faults: Faults
    var files: map<string, seq<Byte>>
    var temp: Option<seq<Byte>>                // contents of the temporary file; None when idle
    var target: string
    var hashed: seq<Byte>
    var size: nat
    var expected: Digest
    var overwrite: bool

    constructor (resolve: string -> Option<string>, faults: Faults)
      ensures Idle() && files == map[] && this.resolve == resolve && this.faults == faults
    {
      this.resolve, this.faults := resolve, faults;
      files, temp, target, hashed, size, expected, overwrite := map[], None, "", [], 0, Sha256([]), false;
    }

    // Every layer refuses an empty name.
    function Place(path: string): Option<string> {
      if path == "" then None else resolve(path)
    }

    predicate Idle()
      reads this`temp
    {
      temp.None?
    }

    // A session may begin when none is open, for a name that stands for a place, over a file
    // only if that may be overwritten.
    predicate Begins(path: string, overwrite: bool)
      reads this
    {
      temp.None? && path != "" && resolve(path).Some? && (overwrite || resolve(path).value !in files)
    }

    // The session has received exactly these bytes.
    predicate Holds(path: string, sha: Digest, data: seq<Byte>)
      reads this
    {
      Whole() && hashed == data && expected == sha && Place(path) == Some(target)
    }

    method Begin(path: string, sha: Digest, overwrite: bool) returns (o: Outcome<()>)
      modifies this
      ensures files == old(files)
      ensures o == Done(()) || o == Raised(Infrastructure)
      ensures o.Done? ==> Holds(path, sha, []) && this.overwrite == overwrite
      ensures !o.Done? ==> temp == old(temp)
      ensures o.Done? ==> old(Begins(path, overwrite))
      ensures !faults.io && old(Begins(path, overwrite)) ==> o.Done?
    {
      if temp.Some? {
        return Raised(Infrastructure);
      }
      var place := Place(path);
      if place.None? {
        return Raised(Infrastructure);
      }
      if place.value in files && !overwrite {
        return Raised(Infrastructure);
      }
      var _ :- Risk(faults.io);
      target, temp := place.value, Some([]);
      expected, this.overwrite := sha, overwrite;
      size, hashed := 0, [];
      return Done(());
    }

    // The temporary file holds what was hashed, which a failed write can spoil.
    predicate Whole()
      reads this
    {
      temp == Some(hashed) && size == |hashed|
    }

    method Chunk(data: seq<Byte>) returns (o: Outcome<()>)
      modifies this`temp, this`hashed, this`size
      ensures o == Done(()) || o == Raised(Infrastructure)
      ensures Idle() == old(Idle())
      ensures o.Done? ==> old(temp).Some? && |data| <= CHUNK && size <= MAX_FILE && size == old(size) + |data|
                          && temp == Some(old(temp).value + data) && hashed == old(hashed) + data
      ensures !o.Done? ==> size == old(size) && hashed == old(hashed)
      ensures !o.Done? && temp != old(temp) ==>
                faults.io && temp.Some? && old(temp).Some? && old(temp).value <= temp.value
      ensures !faults.io ==> (o.Done? <==> old(temp).Some? && |data| <= CHUNK && old(size) + |data| <= MAX_FILE)
    {
      if temp.None? || |data| > CHUNK || size + |data| > MAX_FILE {
        return Raised(Infrastructure);
      }
      var written := Risk(faults.io);
      if !written.Done? {
        var part: nat := *;
        temp := Some(temp.value + data[..Least(part, |data|)]);
        return written;
      }
      temp := Some(temp.value + data);
      hashed := hashed + data;
      size := size + |data|;
      return Done(());
    }

    // A file is put in place only under the hash and size that were announced, and never over
    // one that appeared meanwhile without leave; the session ends either way.
    method Finish(announced: nat) returns (o: Outcome<(string, nat, Digest)>)
      modifies this`files, this`temp
      ensures Idle()
      ensures o.Done? || o == Raised(Infrastructure)
      ensures o.Done? ==> old(temp).Some? && files == old(files)[target := old(temp).value]
                          && o.value == (target, size, expected)
      ensures o.Done? && old(Whole()) ==> Sha256(files[target]) == expected && |files[target]| == announced
      ensures !o.Done? ==> files == old(files)
      ensures o.Done? || !faults.io ==>
                (o.Done? <==> old(temp).Some? && Sha256(hashed) == expected && size == announced
                              && (target in old(files) ==> overwrite))
    {
      if temp.None? {
        return Raised(Infrastructure);
      }
      if Sha256(hashed) != expected || size != announced || (target in files && !overwrite) {
        Abort();
        return Raised(Infrastructure);
      }
      var replaced := Risk(faults.io);
      if !replaced.Done? {
        Abort();
        return Raised(Infrastructure);
      }
      files := files[target := temp.value];
      o := Done((target, size, expected));
      Abort();
    }

    method Abort()
      modifies this`temp
      ensures Idle()
    {
      temp := None;
    }

    predicate Readable(path: string)
      reads this`files
    {
      Place(path).Some? && Place(path).value in files && |files[Place(path).value]| <= MAX_FILE
    }

    method Stat(path: string) returns (o: Outcome<nat>)
      ensures o.Done? || o == Raised(Infrastructure)
      ensures o.Done? ==> Place(path).Some? && Place(path).value in files
                          && o.value == |files[Place(path).value]| <= MAX_FILE
      ensures !faults.io && Readable(path) ==> o.Done?
    {
      var place := Place(path);
      if place.None? || place.value !in files || |files[place.value]| > MAX_FILE {
        return Raised(Infrastructure);
      }
      var _ :- Risk(faults.io);
      return Done(|files[place.value]|);
    }

    // pread of at most one chunk.
    method ReadChunk(path: string, offset: nat) returns (o: Outcome<seq<Byte>>)
      ensures o.Done? || o == Raised(Infrastructure)
      ensures o.Done? ==> Place(path).Some? && Place(path).value in files
                          && |files[Place(path).value]| <= MAX_FILE
                          && o.value == var data := files[Place(path).value];
                             if offset <= |data| then Slice(data, offset) else []
      ensures offset > MAX_FILE ==> !o.Done?
      ensures !faults.io && Readable(path) && offset <= MAX_FILE ==> o.Done?
    {
      var place := Place(path);
      if offset > MAX_FILE || place.None? || place.value !in files || |files[place.value]| > MAX_FILE {
        return Raised(Infrastructure);
      }
      var _ :- Risk(faults.io);
      var data := files[place.value];
      if offset > |data| {
        return Done([]);
      }
      return Done(data[offset..offset + Least(Least(CHUNK, MAX_FILE - offset), |data| - offset)]);
    }

    // The guest is live: its files may change between any two requests.
    method Live()
      modifies this`files
      ensures !faults.io ==> files == old(files)
    {
      var changed: bool := *;
      if faults.io && changed {
        files := *;
      }
    }
  }

  // ---------------------------------------------------------------- the broker

  class Broker {
    const guest: Guest
    const maximum: nat                          // max_transfer_bytes
    var artifacts: map<Digest, seq<Byte>>
    var uploads: map<nat, seq<Byte>>
    var next: nat

    constructor (guest: Guest, maximum: nat)
      ensures Named() && this.guest == guest && this.maximum == maximum && artifacts == map[] && uploads == map[]
    {
      this.guest, this.maximum := guest, maximum;
      artifacts, uploads, next := map[], map[], 0;
    }

    // Every stored artifact is named by its own hash.
    ghost predicate Named()
      reads this
    {
      && (forall sha | sha in artifacts :: sha == Sha256(artifacts[sha]))
      && (forall id | id in uploads :: id < next)
    }

    predicate Has(sha: Digest, data: seq<Byte>)
      reads this`artifacts
    {
      sha in artifacts && artifacts[sha] == data
    }

    method StageBegin() returns (id: nat)
      requires Named()
      modifies this
      ensures Named() && artifacts == old(artifacts)
      ensures id !in old(uploads) && uploads == old(uploads)[id := []]
    {
      id := next;
      next := next + 1;
      uploads := uploads[id := []];
    }

    method StageAbort(id: nat)
      requires Named()
      modifies this`uploads
      ensures Named() && uploads == old(uploads) - {id}
    {
      uploads := uploads - {id};
    }

    method StageChunk(id: nat, data: seq<Byte>) returns (o: Outcome<nat>)
      requires Named()
      modifies this`uploads
      ensures Named() && (o.Done? || o == Raised(Infrastructure))
      ensures o.Done? <==> id in old(uploads) && |data| <= CHUNK && |old(uploads)[id]| + |data| <= maximum
      ensures uploads == if o.Done? then old(uploads)[id := old(uploads)[id] + data] else old(uploads)
    {
      if |data| > CHUNK || id !in uploads {
        return Raised(Infrastructure);
      }
      if |uploads[id]| + |data| > maximum {
        return Raised(Infrastructure);
      }
      uploads := uploads[id := uploads[id] + data];
      return Done(|uploads[id]|);
    }

    method StageEnd(id: nat, size: nat, sha: Digest) returns (o: Outcome<Digest>)
      requires Named()
      modifies this
      ensures Named() && (o.Done? || o == Raised(Infrastructure))
      ensures o.Done? <==> id in old(uploads) && |old(uploads)[id]| == size && sha == Sha256(old(uploads)[id])
      ensures o.Done? ==> o.value == sha && artifacts == old(artifacts)[sha := old(uploads)[id]]
                          && uploads == old(uploads) - {id}
      ensures !o.Done? ==> artifacts == old(artifacts) && uploads == old(uploads)
    {
      if id !in uploads || |uploads[id]| != size || Sha256(uploads[id]) != sha {
        return Raised(Infrastructure);
      }
      if sha in artifacts {
        if Sha256(artifacts[sha]) != sha {
          assert false;
        }
      } else {
        artifacts := artifacts[sha := uploads[id]];
      }
      uploads := uploads - {id};
      return Done(sha);
    }

    method ArtifactChunk(sha: Digest, offset: nat) returns (o: Outcome<(seq<Byte>, nat, Digest)>)
      requires Named()
      ensures o.Done? || o == Raised(Infrastructure)
      ensures o.Done? <==> sha in artifacts && |artifacts[sha]| <= maximum
      ensures o.Done? ==> o.value.1 == |artifacts[sha]| && o.value.2 == sha
                          && o.value.0 == if offset <= |artifacts[sha]| then Slice(artifacts[sha], offset) else []
    {
      if sha !in artifacts || |artifacts[sha]| > maximum {
        return Raised(Infrastructure);
      }
      var data := artifacts[sha];
      return Done((if offset <= |data| then Slice(data, offset) else [], |data|, sha));
    }

    // Into the guest.  Without lost messages a failure leaves the guest as it was.
    method ImportArtifact(sha: Digest, path: string, overwrite: bool) returns (o: Outcome<(string, nat, Digest)>)
      requires Named()
      modifies guest
      ensures o.Done? || o == Raised(Infrastructure)
      ensures guest.files == old(guest.files)
              || (sha in artifacts && |artifacts[sha]| <= MAX_FILE && guest.Place(path).Some?
                  && guest.files == old(guest.files)[guest.Place(path).value := artifacts[sha]])
      ensures o.Done? ==> sha in artifacts && guest.Place(path).Some?
                          && guest.files == old(guest.files)[guest.Place(path).value := artifacts[sha]]
                          && o.value == (guest.Place(path).value, |artifacts[sha]|, sha)
                          && |artifacts[sha]| <= maximum && |artifacts[sha]| <= MAX_FILE
      ensures !guest.faults.loss && old(guest.Idle()) ==> guest.Idle()
      ensures !guest.faults.loss && !o.Done? ==> guest.files == old(guest.files)
      ensures guest.faults == Faults(false, false) && old(guest.Idle()) && overwrite && guest.Place(path).Some? ==>
                (o.Done? <==> sha in artifacts && |artifacts[sha]| <= maximum && |artifacts[sha]| <= MAX_FILE)
    {
      if sha !in artifacts || |artifacts[sha]| > maximum || Sha256(artifacts[sha]) != sha {
        return Raised(Infrastructure);
      }
      var data := artifacts[sha];
      var _ :- Risk(guest.faults.loss);
      var _ :- guest.Begin(path, sha, overwrite);
      var _ :- Risk(guest.faults.loss);
      o := Send(sha, path, data);
      if !o.Done? {
        var heard := Risk(guest.faults.loss);
        if heard.Done? {
          guest.Abort();
        }
      }
    }

    method Send(sha: Digest, path: string, data: seq<Byte>) returns (o: Outcome<(string, nat, Digest)>)
      requires guest.Holds(path, sha, []) && sha == Sha256(data)
      modifies guest
      ensures o.Done? || o == Raised(Infrastructure)
      ensures guest.Place(path).Some?
      ensures guest.files == old(guest.files)
              || (|data| <= MAX_FILE && guest.files == old(guest.files)[guest.Place(path).value := data])
      ensures o.Done? ==> guest.files == old(guest.files)[guest.Place(path).value := data] && guest.Idle()
                          && o.value == (guest.Place(path).value, |data|, sha) && |data| <= MAX_FILE
      ensures !guest.faults.loss && !o.Done? ==> guest.files == old(guest.files)
      ensures guest.faults == Faults(false, false) && old(guest.overwrite) && |data| <= MAX_FILE ==> o.Done?
    {
      var offset := 0;
      while offset < |data|
        invariant 0 <= offset <= |data|
        invariant guest.Holds(path, sha, data[..offset]) && guest.files == old(guest.files)
        invariant guest.overwrite == old(guest.overwrite) && offset <= MAX_FILE
      {
        var chunk := Slice(data, offset);
        var _ :- Risk(guest.faults.loss);
        assert data[..offset] + chunk == data[..offset + |chunk|];
        var _ :- guest.Chunk(chunk);
        var _ :- Risk(guest.faults.loss);
        offset := offset + |chunk|;
      }
      assert data[..offset] == data;
      var _ :- Risk(guest.faults.loss);
      var result :- guest.Finish(|data|);
      var _ :- Risk(guest.faults.loss);
      return Done(result);
    }

    // Out of the guest.  Whatever the guest does meanwhile, what is stored is named by its hash.
    method ExportArtifact(path: string) returns (o: Outcome<(nat, Digest)>)
      requires Named() && this as object != guest
      modifies this, guest
      ensures Named() && uploads == old(uploads) && next == old(next)
      ensures o.Done? || o == Raised(Infrastructure)
      ensures o.Done? ==> o.value.1 in artifacts && o.value.0 == |artifacts[o.value.1]| && o.value.0 <= maximum
      ensures guest.temp == old(guest.temp)
      ensures !guest.faults.io ==> guest.files == old(guest.files)
      ensures !guest.faults.io && o.Done? ==>
                guest.Place(path).Some? && guest.Place(path).value in guest.files
                && o.value.1 == Sha256(guest.files[guest.Place(path).value])
      ensures guest.faults == Faults(false, false) && guest.Readable(path) ==>
                (o.Done? <==> |guest.files[guest.Place(path).value]| <= maximum)
    {
      var _ :- Risk(guest.faults.loss);
      var size :- guest.Stat(path);
      if size > maximum {
        return Raised(Infrastructure);
      }
      var data: seq<Byte> := [];
      while |data| < size
        invariant |data| <= size
        invariant Named() && uploads == old(uploads) && next == old(next) && artifacts == old(artifacts)
        invariant guest.temp == old(guest.temp)
        invariant !guest.faults.io ==>
                    guest.files == old(guest.files) && guest.Place(path).Some? && guest.Place(path).value in guest.files
                    && size == |guest.files[guest.Place(path).value]| <= MAX_FILE
                    && data == guest.files[guest.Place(path).value][..|data|]
        decreases size - |data|
      {
        guest.Live();
        var _ :- Risk(guest.faults.loss);
        var chunk :- guest.ReadChunk(path, |data|);
        if chunk == [] || |chunk| > Least(CHUNK, size - |data|) {
          return Raised(Infrastructure);
        }
        data := data + chunk;
      }
      var sha := Sha256(data);
      if sha !in artifacts {
        artifacts := artifacts[sha := data];
      }
      return Done((|data|, sha));
    }
  }

  // ---------------------------------------------------------------- the provider

  class Provider {
    const broker: Broker

    constructor (broker: Broker)
      ensures this.broker == broker
    {
      this.broker := broker;
    }

    ghost predicate Wired()
    {
      broker as object != broker.guest
    }

    // What stays within the limits of all three layers.
    predicate Fits(data: seq<Byte>) {
      |data| <= MAX_PROVIDER && |data| <= broker.maximum && |data| <= MAX_FILE
    }

    method Stage(data: seq<Byte>) returns (o: Outcome<Digest>, id: nat)
      requires broker.Named()
      modifies broker
      ensures broker.Named() && (o.Done? || o == Raised(Infrastructure))
      ensures o.Done? <==> |data| <= broker.maximum
      ensures o.Done? ==> o.value == Sha256(data) && broker.Has(o.value, data)
      ensures !o.Done? ==> broker.artifacts == old(broker.artifacts)
      ensures broker.uploads - {id} == old(broker.uploads) && (o.Done? ==> broker.uploads == old(broker.uploads))
    {
      id := broker.StageBegin();
      var offset := 0;
      while offset < |data|
        invariant 0 <= offset <= |data| && offset <= broker.maximum
        invariant broker.Named() && broker.artifacts == old(broker.artifacts) && id in broker.uploads
        invariant broker.uploads == old(broker.uploads)[id := data[..offset]]
      {
        var chunk := Slice(data, offset);
        assert data[..offset] + chunk == data[..offset + |chunk|];
        var received := broker.StageChunk(id, chunk);
        if !received.Done? {
          o := received.PropagateFailure();
          return;
        }
        offset := offset + |chunk|;
      }
      assert data[..offset] == data;
      o := broker.StageEnd(id, |data|, Sha256(data));
    }

    // True exactly when the guest's file at this very path now holds exactly these bytes.
    method ImportBytes(data: seq<Byte>, path: string) returns (o: Outcome<()>)
      requires Wired() && broker.Named()
      modifies broker, broker.guest
      ensures broker.Named() && (o.Done? || o == Raised(Infrastructure))
      ensures broker.uploads == old(broker.uploads)
      ensures |data| > MAX_PROVIDER ==> broker.artifacts == old(broker.artifacts)
      ensures o.Done? ==> Fits(data) && broker.guest.Place(path) == Some(path)
                          && broker.guest.files == old(broker.guest.files)[path := data]
      ensures broker.guest.files == old(broker.guest.files)
              || (Fits(data) && broker.guest.Place(path).Some?
                  && broker.guest.files == old(broker.guest.files)[broker.guest.Place(path).value := data])
      ensures !broker.guest.faults.loss && old(broker.guest.Idle()) ==> broker.guest.Idle()
      ensures !broker.guest.faults.loss && !o.Done? && broker.guest.Place(path) == Some(path) ==>
                broker.guest.files == old(broker.guest.files)
      ensures broker.guest.faults == Faults(false, false) && old(broker.guest.Idle()) ==>
                (o.Done? <==> Fits(data) && broker.guest.Place(path) == Some(path))
      ensures broker.guest.faults == Faults(false, false) && old(broker.guest.Idle())
              && Fits(data) && broker.guest.Place(path).Some? ==>
                broker.guest.files == old(broker.guest.files)[broker.guest.Place(path).value := data]
    {
      if |data| > MAX_PROVIDER {
        return Raised(Infrastructure);
      }
      var staged, id := Stage(data);
      if !staged.Done? {
        broker.StageAbort(id);
        return staged.PropagateFailure();
      }
      var result := broker.ImportArtifact(staged.value, path, true);
      if !result.Done? {
        broker.StageAbort(id);
        return result.PropagateFailure();
      }
      var (place, size, sha) := result.value;
      if sha != Sha256(data) || size != |data| || place != path {
        broker.StageAbort(id);
        return Raised(Infrastructure);
      }
      return Done(());
    }

    // What is downloaded has the announced hash and size, and the loop ends because every
    // accepted chunk is non-empty.
    method Download(size: nat, sha: Digest) returns (o: Outcome<seq<Byte>>)
      requires broker.Named()
      ensures o.Done? || o == Raised(Infrastructure)
      ensures o.Done? ==> Sha256(o.value) == sha && |o.value| == size
      ensures sha in broker.artifacts && |broker.artifacts[sha]| == size <= broker.maximum ==>
                o == Done(broker.artifacts[sha])
    {
      var data: seq<Byte> := [];
      var offset := 0;
      while offset < size
        invariant offset == |data| <= size
        invariant sha in broker.artifacts && |broker.artifacts[sha]| == size <= broker.maximum ==>
                    data == broker.artifacts[sha][..offset]
        decreases size - offset
      {
        var reply :- broker.ArtifactChunk(sha, offset);
        var (raw, total, name) := reply;
        if name != sha || total != size || raw == [] || |raw| > Least(CHUNK, size - offset) {
          return Raised(Infrastructure);
        }
        data := data + raw;
        offset := offset + |raw|;
      }
      if Sha256(data) != sha {
        return Raised(Infrastructure);
      }
      return Done(data);
    }

    method Export(path: string) returns (o: Outcome<(seq<Byte>, Digest)>)
      requires Wired() && broker.Named()
      modifies broker, broker.guest
      ensures broker.Named() && (o.Done? || o == Raised(Infrastructure))
      ensures o.Done? ==> o.value.1 == Sha256(o.value.0) && broker.Has(o.value.1, o.value.0)
                          && |o.value.0| <= MAX_PROVIDER
      ensures !broker.guest.faults.io ==> broker.guest.files == old(broker.guest.files)
      ensures !broker.guest.faults.io && o.Done? ==>
                broker.guest.Place(path).Some? && broker.guest.Place(path).value in broker.guest.files
                && o.value.0 == broker.guest.files[broker.guest.Place(path).value]
      ensures broker.guest.temp == old(broker.guest.temp)
      ensures broker.guest.faults == Faults(false, false) && broker.guest.Readable(path) ==>
                (o.Done? <==> Fits(broker.guest.files[broker.guest.Place(path).value]))
    {
      var exported :- broker.ExportArtifact(path);
      var (size, sha) := exported;
      if size > MAX_PROVIDER {
        return Raised(Infrastructure);
      }
      var data := Download(size, sha);
      return if data.Done? then Done((data.value, sha)) else Raised(Infrastructure);
    }

    // In and out again: the same bytes, for data of any length that all layers accept.
    method RoundTrip(data: seq<Byte>, path: string) returns (o: Outcome<seq<Byte>>)
      requires Wired() && broker.Named()
      requires broker.guest.faults == Faults(false, false) && broker.guest.Idle()
      modifies broker, broker.guest
      ensures broker.Named() && broker.guest.Idle()
      ensures if Fits(data) && broker.guest.Place(path) == Some(path) then o == Done(data) else !o.Done?
    {
      var _ :- ImportBytes(data, path);
      var back := Export(path);
      return if back.Done? then Done(back.value.0) else Raised(Infrastructure);
    }
  }

  const WORKSPACE := "/home/kali/workspace"

  // The guest takes a relative name under its workspace.
  function InWorkspace(path: string): Option<string> {
    if path != "" && path[0] == '/' then Some(path) else Some(WORKSPACE + "/" + path)
  }

  // Only an absolute name is reported unchanged.
  lemma AbsolutePathsStay(path: string)
    ensures InWorkspace(path) == Some(path) <==> path != "" && path[0] == '/'
    ensures InWorkspace(path).Some? && InWorkspace(path).value != "" && InWorkspace(path).value[0] == '/'
  {
    assert (WORKSPACE + "/" + path)[0] == '/' && |WORKSPACE + "/" + path| > |path|;
  }

  // Nothing fails, the file is written, and the import is refused.
  method RelativePathIsRefusedLate() returns (o: Outcome<()>, files: map<string, seq<Byte>>)
    ensures o == Raised(Infrastructure) && files == map[WORKSPACE + "/result" := [7]]
  {
    var guest := new Guest(InWorkspace, Faults(false, false));
    var broker := new Broker(guest, MAX_FILE);
    var provider := new Provider(broker);
    assert "result"[0] == 'r' && WORKSPACE + "/" + "result" == WORKSPACE + "/result";
    assert guest.Place("result") == InWorkspace("result");
    assert (WORKSPACE + "/result")[0] == '/';
    o := provider.ImportBytes([7], "result");
    files := guest.files;
  }
}
