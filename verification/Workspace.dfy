// The byte string a workspace snapshot hashes.
module Workspace {
  import opened Basics
  import Text

  // An entry of the workspace, its path in bytes.
  datatype Entry =
    | Directory(path: seq<Byte>)
    | File(path: seq<Byte>, executable: bool, contents: seq<Byte>)

  const MAX_WORKSPACE := 512 * 1024 * 1024

  predicate NulFree(s: seq<Byte>) {
    forall k | 0 <= k < |s| :: s[k] != 0
  }

  // Paths of a file system hold no NUL.
  predicate Representable(entries: seq<Entry>) {
    forall k | 0 <= k < |entries| :: NulFree(entries[k].path)
  }

  function Decimal(n: nat): seq<Byte> {
    if n < 10 then [48 + n] else Decimal(n / 10) + [48 + n % 10]
  }

  // "d", path and "f", path, "x" or "-", size, contents, each closed by NUL.
  function EntryBytes(e: Entry): seq<Byte> {
    match e
    case Directory(path) => [100, 0] + path + [0]
    case File(path, executable, contents) =>
      [102, 0] + path + [0] + ([if executable then 120 else 45, 0] + Decimal(|contents|) + [0] + contents + [0])
  }

  function ListBytes(entries: seq<Entry>): seq<Byte> {
    if entries == [] then [] else EntryBytes(entries[0]) + ListBytes(entries[1..])
  }

  predicate IsAscii(s: string) {
    forall k | 0 <= k < |s| :: s[k] < '\U{80}'
  }

  function Ascii(s: string): seq<Byte>
    requires IsAscii(s)
  {
    seq(|s|, k requires 0 <= k < |s| => s[k] as int)
  }

  function Terminated(fields: seq<seq<Byte>>): seq<Byte> {
    if fields == [] then [] else fields[0] + [0] + Terminated(fields[1..])
  }

  lemma {:induction false} DecimalIsDigits(n: nat)
    ensures IsAscii(Text.Digits(n)) && Decimal(n) == Ascii(Text.Digits(n))
  {
    assert forall d: nat | d < 10 :: "0123456789"[d] as int == 48 + d;
    if n >= 10 {
      DecimalIsDigits(n / 10);
    }
  }

  // The bytes of an entry are its fields: the kind, the path, and for a file whether it is
  // executable, its size in decimal and its contents.
  lemma EntryIsFields(e: Entry)
    ensures EntryBytes(e) == Terminated(
              match e
              case Directory(path) => [Ascii("d"), path]
              case File(path, executable, contents) =>
                [Ascii("f"), path, Ascii(if executable then "x" else "-"), Decimal(|contents|), contents])
    ensures NO_WORKSPACE == Terminated([Ascii("empty")])
  {
    hide Terminated, Decimal;
    AsciiTags();
    NoWorkspaceIsEmpty();
    match e
    case Directory(path) =>
      TwoFields(Ascii("d"), path);
      assert [100, 0] + path + [0] == [100] + [0] + (path + [0]);
    case File(path, executable, contents) =>
      var mode, size := Ascii(if executable then "x" else "-"), Decimal(|contents|);
      ThreeFields(mode, size, contents);
      FiveFields(Ascii("f"), path, mode, size, contents);
      FileBytes(path, mode[0], size, contents);
  }

  lemma AsciiTags()
    ensures Ascii("d") == [100] && Ascii("f") == [102] && Ascii("x") == [120] && Ascii("-") == [45]
    ensures Ascii("empty") == [101, 109, 112, 116, 121]
  {
  }

  lemma NoWorkspaceIsEmpty()
    ensures NO_WORKSPACE == Terminated([Ascii("empty")])
  {
    AsciiTags();
    TwoFields(Ascii("empty"), []);
  }

  lemma FileBytes(path: seq<Byte>, mode: Byte, size: seq<Byte>, contents: seq<Byte>)
    ensures [102, 0] + path + [0] + ([mode, 0] + size + [0] + contents + [0]) ==
            [102] + [0] + (path + [0] + ([mode] + [0] + (size + [0] + (contents + [0]))))
  {
    var tail := size + [0] + (contents + [0]);
    assert [mode, 0] + size + [0] + contents + [0] == [mode] + [0] + tail;
    assert [102, 0] + path + [0] == [102] + [0] + (path + [0]);
  }

  lemma OneField(a: seq<Byte>)
    ensures Terminated([a]) == a + [0]
  {
    assert [a][1..] == [] && Terminated([]) == [];
    assert a + [0] + [] == a + [0];
  }

  lemma TwoFields(a: seq<Byte>, b: seq<Byte>)
    ensures Terminated([a, b]) == a + [0] + (b + [0])
    ensures Terminated([a]) == a + [0]
  {
    OneField(a);
    OneField(b);
    assert [a, b][1..] == [b];
  }

  lemma ThreeFields(a: seq<Byte>, b: seq<Byte>, c: seq<Byte>)
    ensures Terminated([a, b, c]) == a + [0] + (b + [0] + (c + [0]))
  {
    assert [a, b, c][1..] == [b, c];
    TwoFields(b, c);
  }

  lemma FiveFields(a: seq<Byte>, b: seq<Byte>, c: seq<Byte>, d: seq<Byte>, e: seq<Byte>)
    ensures Terminated([a, b, c, d, e]) == a + [0] + (b + [0] + Terminated([c, d, e]))
  {
    assert [a, b, c, d, e][1..] == [b, c, d, e] && [b, c, d, e][1..] == [c, d, e];
  }

  const NO_WORKSPACE: seq<Byte> := [101, 109, 112, 116, 121, 0]     // "empty" and NUL

  function Preimage(workspace: Option<seq<Entry>>): seq<Byte> {
    if workspace.None? then NO_WORKSPACE else ListBytes(workspace.value)
  }

  // An ideal hash.
  datatype Digest = Sha256(preimage: seq<Byte>)

  function Size(entries: seq<Entry>): nat {
    if entries == [] then 0
    else
      Size(entries[..|entries| - 1]) +
      if entries[|entries| - 1].File? then |entries[|entries| - 1].contents| else 0
  }

  function Files(entries: seq<Entry>): nat {
    if entries == [] then 0
    else Files(entries[..|entries| - 1]) + if entries[|entries| - 1].File? then 1 else 0
  }

  // The counts are those of the files, entry by entry.
  lemma {:induction false} CountsAdd(a: seq<Entry>, b: seq<Entry>)
    ensures Files(a + b) == Files(a) + Files(b) && Size(a + b) == Size(a) + Size(b)
    ensures forall path :: Files([Directory(path)]) == Size([Directory(path)]) == 0
    ensures forall path, x, contents ::
              Files([File(path, x, contents)]) == 1 && Size([File(path, x, contents)]) == |contents|
  {
    if b == [] {
      assert a + b == a;
    } else {
      var n := |b| - 1;
      CountsAdd(a, b[..n]);
      assert (a + b)[..|a| + n] == a + b[..n];
    }
  }

  datatype Snapshot = Snapshot(sha256: Digest, files: nat, bytes: nat)

  // None where the source raises because the workspace is too large.
  method TakeSnapshot(workspace: Option<seq<Entry>>) returns (snapshot: Option<Snapshot>)
    ensures snapshot.Some? <==> (workspace.Some? ==> Size(workspace.value) <= MAX_WORKSPACE)
    ensures snapshot.Some? ==> snapshot.value.sha256 == Sha256(Preimage(workspace))
    ensures snapshot.Some? && workspace.Some? ==>
              snapshot.value.files == Files(workspace.value) && snapshot.value.bytes == Size(workspace.value)
    ensures workspace.None? ==> snapshot.Some? && snapshot.value.files == snapshot.value.bytes == 0
  {
    hide EntryBytes;
    if workspace.None? {
      return Some(Snapshot(Sha256(NO_WORKSPACE), 0, 0));
    }
    var entries := workspace.value;
    var hashed: seq<Byte> := [];
    var files, total := 0, 0;
    var k := 0;
    while k < |entries|
      invariant 0 <= k <= |entries|
      invariant hashed == ListBytes(entries[..k]) && files == Files(entries[..k]) && total == Size(entries[..k])
      invariant total <= MAX_WORKSPACE
    {
      var entry := entries[k];
      assert entries[..k + 1][..k] == entries[..k];
      OneMoreEntry(entries[..k], entry);
      assert entries[..k] + [entry] == entries[..k + 1];
      if entry.File? {
        total := total + |entry.contents|;
        files := files + 1;
        if total > MAX_WORKSPACE {
          SizeGrows(entries, k + 1);
          return None;
        }
      }
      hashed := Update(hashed, entry);
      k := k + 1;
    }
    assert entries[..k] == entries;
    return Some(Snapshot(Sha256(hashed), files, total));
  }

  // The updates of the digest for one entry.
  method Update(before: seq<Byte>, e: Entry) returns (hashed: seq<Byte>)
    ensures hashed == before + EntryBytes(e)
  {
    hashed := before;
    if e.Directory? {
      hashed := hashed + [100, 0];
      hashed := hashed + e.path;
      hashed := hashed + [0];
      assert hashed == before + EntryBytes(e);
    } else {
      hashed := hashed + [102, 0];
      hashed := hashed + e.path;
      hashed := hashed + [0];
      hashed := hashed + [if e.executable then 120 else 45, 0];
      hashed := hashed + Decimal(|e.contents|);
      hashed := hashed + [0];
      hashed := hashed + e.contents;
      hashed := hashed + [0];
      assert hashed == before + EntryBytes(e);
    }
  }

  lemma {:induction false} OneMoreEntry(entries: seq<Entry>, e: Entry)
    ensures ListBytes(entries + [e]) == ListBytes(entries) + EntryBytes(e)
  {
    hide EntryBytes;
    if entries == [] {
      assert [] + [e] == [e] && [e][1..] == [];
      assert EntryBytes(e) + [] == EntryBytes(e);
    } else {
      OneMoreEntry(entries[1..], e);
      assert (entries + [e])[1..] == entries[1..] + [e];
    }
  }

  lemma {:induction false} SizeGrows(entries: seq<Entry>, k: nat)
    requires k <= |entries|
    ensures Size(entries[..k]) <= Size(entries)
    decreases |entries|
  {
    if k == |entries| {
      assert entries[..k] == entries;
    } else {
      assert entries[..|entries| - 1][..k] == entries[..k];
      SizeGrows(entries[..|entries| - 1], k);
    }
  }

  // ---------------------------------------------------------------- the byte string is unambiguous

  function Value(s: seq<Byte>): int {
    if s == [] then 0 else 10 * Value(s[..|s| - 1]) + s[|s| - 1] - 48
  }

  lemma {:induction false} DecimalIsRead(n: nat)
    ensures Value(Decimal(n)) == n && NulFree(Decimal(n))
  {
    if n < 10 {
      assert [48 + n][..0] == [];
    } else {
      DecimalIsRead(n / 10);
      var s := Decimal(n);
      assert s[..|s| - 1] == Decimal(n / 10);
    }
  }

  lemma SplitAtNul(p: seq<Byte>, s: seq<Byte>, q: seq<Byte>, t: seq<Byte>)
    requires NulFree(p) && NulFree(q) && p + [0] + s == q + [0] + t
    ensures p == q && s == t
  {
    var a, b := p + [0] + s, q + [0] + t;
    assert a[|p|] == 0 && forall k | 0 <= k < |p| :: a[k] == p[k];
    assert b[|q|] == 0 && forall k | 0 <= k < |q| :: b[k] == q[k];
    assert |p| == |q|;
    assert p == a[..|p|] && q == b[..|q|];
    assert s == a[|p| + 1..] && t == b[|q| + 1..];
  }

  lemma SplitAt(n: nat, p: seq<Byte>, s: seq<Byte>, q: seq<Byte>, t: seq<Byte>)
    requires |p| == |q| == n && p + s == q + t
    ensures p == q && s == t
  {
    assert p == (p + s)[..n] && q == (q + t)[..n];
    assert s == (p + s)[n..] && t == (q + t)[n..];
  }

  // No entry's bytes begin another entry's bytes.
  lemma EntryIsRead(x: Entry, s: seq<Byte>, y: Entry, t: seq<Byte>)
    requires NulFree(x.path) && NulFree(y.path)
    requires EntryBytes(x) + s == EntryBytes(y) + t
    ensures x == y && s == t
  {
    var a', b' := AfterPath(x, s), AfterPath(y, t);
    Layout(x, s);
    Layout(y, t);
    SplitAt(2, Mark(x), x.path + [0] + a', Mark(y), y.path + [0] + b');
    SplitAtNul(x.path, a', y.path, b');
    assert Mark(x)[0] == Mark(y)[0];
    if x.File? {
      FileIsRead(x, s, y, t);
    }
  }

  function Mark(e: Entry): seq<Byte> {
    if e.Directory? then [100, 0] else [102, 0]
  }

  lemma Layout(e: Entry, s: seq<Byte>)
    ensures EntryBytes(e) + s == Mark(e) + (e.path + [0] + AfterPath(e, s))
  {
    if e.Directory? {
      assert EntryBytes(e) + s == [100, 0] + (e.path + [0] + s);
    } else {
      var flag: seq<Byte> := [if e.executable then 120 else 45, 0];
      var size := Decimal(|e.contents|);
      assert EntryBytes(e) == [102, 0] + e.path + [0] + (flag + size + [0] + e.contents + [0]);
      assert AfterPath(e, s) == flag + size + [0] + e.contents + [0] + s;
      assert EntryBytes(e) + s == [102, 0] + (e.path + [0] + (flag + size + [0] + e.contents + [0] + s));
    }
  }

  // What follows the path and its NUL.
  function AfterPath(e: Entry, s: seq<Byte>): seq<Byte> {
    if e.Directory? then s
    else [if e.executable then 120 else 45, 0] + Decimal(|e.contents|) + [0] + e.contents + [0] + s
  }

  lemma AfterPathIs(e: Entry, s: seq<Byte>)
    requires e.File?
    ensures AfterPath(e, s) ==
            [if e.executable then 120 else 45, 0] + (Decimal(|e.contents|) + [0] + (e.contents + [0] + s))
  {
    var flag: seq<Byte> := [if e.executable then 120 else 45, 0];
    var size := Decimal(|e.contents|);
    assert flag + size + [0] + e.contents + [0] + s == flag + (size + [0] + (e.contents + [0] + s));
  }

  lemma FileIsRead(x: Entry, s: seq<Byte>, y: Entry, t: seq<Byte>)
    requires x.File? && y.File? && x.path == y.path && AfterPath(x, s) == AfterPath(y, t)
    ensures x == y && s == t
  {
    var (a1, b1) := (x.contents + [0] + s, y.contents + [0] + t);
    var (m, n) := (Decimal(|x.contents|), Decimal(|y.contents|));
    var f: seq<Byte> := [if x.executable then 120 else 45, 0];
    var g: seq<Byte> := [if y.executable then 120 else 45, 0];
    AfterPathIs(x, s);
    AfterPathIs(y, t);
    hide AfterPath, Decimal;
    SplitAt(2, f, m + [0] + a1, g, n + [0] + b1);
    assert f[0] == g[0];
    DecimalIsRead(|x.contents|);
    DecimalIsRead(|y.contents|);
    SplitAtNul(m, a1, n, b1);
    assert a1 == x.contents + ([0] + s) && b1 == y.contents + ([0] + t);
    SplitAt(|x.contents|, x.contents, [0] + s, y.contents, [0] + t);
    assert s == ([0] + s)[1..] && t == ([0] + t)[1..];
  }

  lemma {:induction false} ListIsRead(a: seq<Entry>, b: seq<Entry>)
    requires Representable(a) && Representable(b) && ListBytes(a) == ListBytes(b)
    ensures a == b
  {
    hide EntryBytes;
    OnlyEmptyIsEmpty(a);
    OnlyEmptyIsEmpty(b);
    if a != [] && b != [] {
      EntryIsRead(a[0], ListBytes(a[1..]), b[0], ListBytes(b[1..]));
      ListIsRead(a[1..], b[1..]);
      assert a == [a[0]] + a[1..] && b == [b[0]] + b[1..];
    }
  }

  lemma OnlyEmptyIsEmpty(entries: seq<Entry>)
    ensures ListBytes(entries) == [] <==> entries == []
  {
  }

  // Two workspaces have the same digest only if they are the same, and no workspace, not
  // even an empty one, has the digest of "no workspace".
  lemma DigestIdentifiesWorkspace(a: Option<seq<Entry>>, b: Option<seq<Entry>>)
    requires a.Some? ==> Representable(a.value)
    requires b.Some? ==> Representable(b.value)
    requires Sha256(Preimage(a)) == Sha256(Preimage(b))
    ensures a == b
  {
    if a.Some? && b.Some? {
      ListIsRead(a.value, b.value);
    } else if a.Some? {
      NoListIsEmptyMark(a.value);
    } else if b.Some? {
      NoListIsEmptyMark(b.value);
    }
  }

  lemma NoListIsEmptyMark(entries: seq<Entry>)
    ensures ListBytes(entries) != NO_WORKSPACE
  {
    if entries != [] {
      assert ListBytes(entries)[0] == EntryBytes(entries[0])[0];
    }
  }

  // With a NUL in a path the byte string would be ambiguous.
  lemma NulInPathCollides()
    ensures var a := [Directory([97, 0, 100, 0, 98])];
            var b := [Directory([97]), Directory([98])];
            a != b && ListBytes(a) == ListBytes(b)
  {
    var b := [Directory([97]), Directory([98])];
    assert b[1..] == [Directory([98])];
    assert ListBytes(b) == [100, 0] + [97] + [0] + ([100, 0] + [98] + [0]);
    assert ListBytes([Directory([97, 0, 100, 0, 98])]) == [100, 0] + [97, 0, 100, 0, 98] + [0];
  }
}
