// Conversation ids as the browser shows them: a frontend-local handle is told from the
// durable id of the backend, however it is spelled.
module Conversation {
  import opened Text

  // ---------------------------------------------------------------- urllib.parse.unquote

  function HexValue(c: char): (v: int)
    ensures -1 <= v < 16
  {
    if '0' <= c <= '9' then c as int - '0' as int
    else if 'a' <= c <= 'f' then c as int - 'a' as int + 10
    else if 'A' <= c <= 'F' then c as int - 'A' as int + 10
    else -1
  }

  // The byte of an escape at place i; -1 if there is none.
  function ByteAt(s: string, i: nat): (b: int)
    ensures -1 <= b < 0x100
    ensures b >= 0 ==> i + 3 <= |s|
  {
    if i + 3 <= |s| && s[i] == '%' && HexValue(s[i + 1]) >= 0 && HexValue(s[i + 2]) >= 0
    then 16 * HexValue(s[i + 1]) + HexValue(s[i + 2])
    else -1
  }

  const REPLACEMENT := '\U{FFFD}'

  // The character that escapes from the start of s encode in UTF-8, and how many they are.
  // Bytes that encode nothing are replaced one by one.
  function Decoded(s: string): (r: (char, nat))
    requires ByteAt(s, 0) >= 0
    ensures r.1 > 0 && 3 * r.1 <= |s|
  {
    var b := ByteAt(s, 0);
    var n := if b < 0x80 then 0 else if 0xC2 <= b < 0xE0 then 1
             else if 0xE0 <= b < 0xF0 then 2 else if 0xF0 <= b < 0xF5 then 3 else -1;
    if n == 0 then (b as char, 1)
    else if n == -1 || !Continued(s, n) then (REPLACEMENT, 1)
    else
      var code := Code(s, n, b - (if n == 1 then 0xC0 else if n == 2 then 0xE0 else 0xF0));
      if code < (if n == 1 then 0x80 else if n == 2 then 0x800 else 0x10000)
         || 0xD800 <= code < 0xE000 || code >= 0x110000
      then (REPLACEMENT, 1)
      else (code as char, n + 1)
  }

  predicate Continued(s: string, n: nat) {
    forall i | 1 <= i <= n :: 0x80 <= ByteAt(s, 3 * i) < 0xC0
  }

  function Code(s: string, n: nat, lead: nat): nat
    requires Continued(s, n)
  {
    if n == 0 then lead else 64 * Code(s, n - 1, lead) + (ByteAt(s, 3 * n) - 0x80)
  }

  function Unquote(s: string): string {
    if s == "" then ""
    else if ByteAt(s, 0) < 0 then [s[0]] + Unquote(s[1..])
    else
      var (c, n) := Decoded(s);
      [c] + Unquote(s[3 * n..])
  }

  // ---------------------------------------------------------------- is_transient_conversation_id

  // The handles the frontend makes up before the backend has named the conversation.
  predicate IsLocal(id: string) {
    var normalized := Folded(Strip(id));
    "web:" <= normalized || "local-chatgpt:" <= normalized
  }

  predicate IsTransient(value: string) {
    Strip(value) == "" || IsLocal(Unquote(value))
  }

  // ---------------------------------------------------------------- any spelling is recognised

  // The bytes of a character in UTF-8.
  function Utf8(c: char): (bytes: seq<int>)
    ensures |bytes| > 0
  {
    var n := c as int;
    if n < 0x80 then [n]
    else if n < 0x800 then [0xC0 + n / 64, 0x80 + n % 64]
    else if n < 0x10000 then [0xE0 + n / 4096, 0x80 + n / 64 % 64, 0x80 + n % 64]
    else [0xF0 + n / 262144, 0x80 + n / 4096 % 64, 0x80 + n / 64 % 64, 0x80 + n % 64]
  }

  predicate IsDigitOf(c: char, v: int) {
    0 <= v < 16 && (c == "0123456789abcdef"[v] || c == "0123456789ABCDEF"[v])
  }

  // A percent sign and two hexadecimal digits, in either case.
  predicate IsEscape(s: string, i: nat, b: int) {
    i + 3 <= |s| && s[i] == '%' && IsDigitOf(s[i + 1], b / 16) && IsDigitOf(s[i + 2], b % 16)
  }

  lemma DigitIsRead(c: char, v: int)
    ensures IsDigitOf(c, v) ==> HexValue(c) == v >= 0
    ensures HexValue(c) >= 0 ==> IsDigitOf(c, HexValue(c))
  {
    assert 0 <= v < 16 ==> "0123456789abcdef"[v] as int == if v < 10 then 48 + v else 87 + v;
    assert 0 <= v < 16 ==> "0123456789ABCDEF"[v] as int == if v < 10 then 48 + v else 55 + v;
    var w := HexValue(c);
    assert 0 <= w ==> "0123456789abcdef"[w] as int == if w < 10 then 48 + w else 87 + w;
    assert 0 <= w ==> "0123456789ABCDEF"[w] as int == if w < 10 then 48 + w else 55 + w;
  }

  // Exactly the escapes are read as bytes.
  lemma EscapeIsRead(s: string, i: nat, b: int)
    ensures IsEscape(s, i, b) ==> ByteAt(s, i) == b
    ensures ByteAt(s, i) >= 0 ==> IsEscape(s, i, ByteAt(s, i))
  {
    hide HexValue, IsDigitOf;
    if i + 3 <= |s| {
      DigitIsRead(s[i + 1], b / 16);
      DigitIsRead(s[i + 2], b % 16);
      var x, y := HexValue(s[i + 1]), HexValue(s[i + 2]);
      if x >= 0 && y >= 0 {
        assert (16 * x + y) / 16 == x && (16 * x + y) % 16 == y;
      }
    }
  }

  // The text begins with escapes of these bytes.
  predicate Escapes(s: string, bytes: seq<int>) {
    3 * |bytes| <= |s| && forall i | 0 <= i < |bytes| :: IsEscape(s, 3 * i, bytes[i])
  }

  lemma EscapesAreBytes(s: string, bytes: seq<int>)
    requires Escapes(s, bytes)
    ensures forall i | 0 <= i < |bytes| :: ByteAt(s, 3 * i) == bytes[i]
  {
    forall i | 0 <= i < |bytes|
      ensures ByteAt(s, 3 * i) == bytes[i]
    {
      EscapeIsRead(s, 3 * i, bytes[i]);
    }
  }

  // A text without escapes is left as it is.
  lemma {:induction false} PlainTextStays(s: string)
    requires forall i: nat, b :: !IsEscape(s, i, b)
    ensures Unquote(s) == s
  {
    if s != "" {
      EscapeIsRead(s, 0, ByteAt(s, 0));
      assert forall i: nat, b :: IsEscape(s[1..], i, b) ==> IsEscape(s, i + 1, b);
      PlainTextStays(s[1..]);
    }
  }

  // The text is the id with some of its characters quoted.
  predicate Spells(s: string, id: string, quoted: seq<bool>)
    requires |quoted| == |id|
  {
    if id == "" then s == ""
    else if quoted[0] then
      Escapes(s, Utf8(id[0])) && Spells(s[3 * |Utf8(id[0])|..], id[1..], quoted[1..])
    else
      s != "" && s[0] == id[0] && Spells(s[1..], id[1..], quoted[1..])
  }

  lemma CodeOfOne(s: string, n: nat)
    requires ByteAt(s, 3) == 0x80 + n % 64
    ensures Continued(s, 1) && Code(s, 1, n / 64) == n
  {
    hide ByteAt;
    assert Code(s, 0, n / 64) == n / 64;
  }

  lemma CodeOfTwo(s: string, n: nat)
    requires ByteAt(s, 3) == 0x80 + n / 64 % 64 && ByteAt(s, 6) == 0x80 + n % 64
    ensures Continued(s, 2) && Code(s, 2, n / 4096) == n
  {
    hide ByteAt;
    CodeOfOne(s, n / 64);
    assert n / 64 / 64 == n / 4096;
  }

  lemma CodeOfThree(s: string, n: nat)
    requires ByteAt(s, 3) == 0x80 + n / 4096 % 64 && ByteAt(s, 6) == 0x80 + n / 64 % 64
    requires ByteAt(s, 9) == 0x80 + n % 64
    ensures Continued(s, 3) && Code(s, 3, n / 262144) == n
  {
    hide ByteAt;
    assert n / 64 / 64 == n / 4096 && n / 64 / 4096 == n / 262144;
    CodeOfTwo(s, n / 64);
  }

  lemma EscapesAreDecoded(s: string, c: char)
    requires Escapes(s, Utf8(c))
    ensures ByteAt(s, 0) >= 0 && Decoded(s) == (c, |Utf8(c)|)
  {
    hide ByteAt, Continued, Code, IsEscape;
    var n, bytes := c as int, Utf8(c);
    EscapesAreBytes(s, bytes);
    assert ByteAt(s, 3 * 0) == bytes[0];
    if |bytes| == 2 {
      assert ByteAt(s, 3 * 1) == bytes[1];
      CodeOfOne(s, n);
    } else if |bytes| == 3 {
      assert ByteAt(s, 3 * 1) == bytes[1] && ByteAt(s, 3 * 2) == bytes[2];
      CodeOfTwo(s, n);
    } else if |bytes| == 4 {
      assert ByteAt(s, 3 * 1) == bytes[1] && ByteAt(s, 3 * 2) == bytes[2] && ByteAt(s, 3 * 3) == bytes[3];
      CodeOfThree(s, n);
    }
  }

  lemma {:induction false} SpelledIsRead(s: string, id: string, quoted: seq<bool>)
    requires |quoted| == |id| && Spells(s, id, quoted)
    requires forall i | 0 <= i < |id| && id[i] == '%' :: quoted[i]
    ensures Unquote(s) == id
  {
    hide Escapes, Decoded, Utf8;
    if id != "" {
      if quoted[0] {
        EscapesAreDecoded(s, id[0]);
        SpelledIsRead(s[3 * |Utf8(id[0])|..], id[1..], quoted[1..]);
      } else {
        SpelledIsRead(s[1..], id[1..], quoted[1..]);
      }
    }
  }

  // Quoting decides nothing, except that a value of blanks only is transient as it stands.
  lemma SpellingDoesNotMatter(s: string, id: string, quoted: seq<bool>)
    requires |quoted| == |id| && Spells(s, id, quoted)
    requires forall i | 0 <= i < |id| && id[i] == '%' :: quoted[i]
    ensures IsTransient(s) <==> IsLocal(id) || Strip(s) == ""
  {
    SpelledIsRead(s, id, quoted);
  }

  // ---------------------------------------------------------------- the frontend-local handles

  predicate Spaces(s: string) {
    forall i | 0 <= i < |s| :: IsSpace(s[i])
  }

  // Nothing, or a text that neither begins nor ends with a space.
  predicate Trimmed(s: string) {
    s == "" || (!IsSpace(s[0]) && !IsSpace(s[|s| - 1]))
  }

  // Stripping takes away the spaces at both ends and nothing else.
  lemma {:induction false} StripIs(a: string, core: string, b: string)
    requires Spaces(a) && Spaces(b) && Trimmed(core)
    ensures Strip(a + core + b) == core
    decreases |a| + |b|
  {
    var s := a + core + b;
    if a != "" {
      assert s[1..] == a[1..] + core + b;
      StripIs(a[1..], core, b);
    } else if b != "" {
      assert s[..|s| - 1] == a + core + b[..|b| - 1];
      StripIs(a, core, b[..|b| - 1]);
      if core == "" {
        assert s[1..] == a + core + b[1..];
        StripIs(a, core, b[1..]);
      }
    } else {
      assert s == core;
    }
  }

  // Whatever follows it, a handle in any case between spaces is transient, quoted or not.
  lemma HandlesAreLocal(a: string, name: string, rest: string, b: string)
    requires Spaces(a) && Spaces(b) && Trimmed(name + rest)
    requires Cased("web:", name) || Cased("local-chatgpt:", name)
    ensures IsLocal(a + name + rest + b)
  {
    assert a + name + rest + b == a + (name + rest) + b;
    StripIs(a, name + rest, b);
    if Cased("web:", name) {
      CasedIsFolded("web:", name, rest);
    } else {
      CasedIsFolded("local-chatgpt:", name, rest);
    }
  }


  // What begins otherwise is not.
  lemma OthersAreNotLocal(a: string, core: string, b: string)
    requires Spaces(a) && Spaces(b) && Trimmed(core)
    requires core == "" || core[0] !in {'w', 'W', 'l', 'L'}
    ensures !IsLocal(a + core + b)
  {
    StripIs(a, core, b);
    assert "web:"[0] == 'w' && "local-chatgpt:"[0] == 'l';
  }

  // ---------------------------------------------------------------- durable ids

  lemma {:induction false} NothingToUnquote(s: string)
    requires '%' !in s
    ensures Unquote(s) == s
  {
    if s != "" {
      NothingToUnquote(s[1..]);
    }
  }

  lemma PlainIdIsDurable(id: string)
    requires id != "" && forall i | 0 <= i < |id| :: id[i] == 'c'
    ensures !IsTransient(id)
  {
    NothingToUnquote(id);
    assert id[0] == 'c' && id[|id| - 1] == 'c' && Strip(id) == id;
    assert Folded(id)[0] == 'c' && "web:"[0] == 'w' && "local-chatgpt:"[0] == 'l';
  }
}
