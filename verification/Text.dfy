// Python's string operations, as far as the models use them.
module Text {

  // str of a number.
  function Digits(n: nat): string {
    if n < 10 then ["0123456789"[n]] else Digits(n / 10) + ["0123456789"[n % 10]]
  }

  // The first place of a character that is there.
  function Place(s: string, c: char): (k: nat)
    requires c in s
    ensures k < |s| && s[k] == c && c !in s[..k]
  {
    if s[0] == c then 0 else 1 + Place(s[1..], c)
  }

  // str.split with a one-character separator.
  function Split(s: string, c: char): (parts: seq<string>)
    ensures |parts| > 0
    decreases |s|
  {
    if c !in s then [s] else [s[..Place(s, c)]] + Split(s[Place(s, c) + 1..], c)
  }

  // str.join
  function Joined(parts: seq<string>, c: char): string {
    if parts == [] then ""
    else if |parts| == 1 then parts[0]
    else parts[0] + [c] + Joined(parts[1..], c)
  }

  lemma {:induction false} JoinedIsSplit(parts: seq<string>, c: char)
    requires parts != [] && forall k | 0 <= k < |parts| :: c !in parts[k]
    ensures Split(Joined(parts, c), c) == parts
  {
    if |parts| > 1 {
      var s, k := Joined(parts, c), |parts[0]|;
      JoinedIsSplit(parts[1..], c);
      assert s[k] == c && s[..k] == parts[0] && s[k + 1..] == Joined(parts[1..], c);
      FirstPlace(s, c, k);
    }
  }

  lemma FirstPlace(s: string, c: char, k: nat)
    requires k < |s| && s[k] == c && c !in s[..k]
    ensures c in s && Place(s, c) == k
  {
    var l := Place(s, c);
    assert forall m | 0 <= m < k :: s[..k][m] == s[m];
    assert forall m | 0 <= m < l :: s[..l][m] == s[m];
  }

  // str.lower and str.casefold.  Outside of ASCII only the Kelvin sign and, in casefold, the
  // long s become ASCII letters by themselves; the others stand for themselves here.
  function Lower(c: char): char {
    if 'A' <= c <= 'Z' then (c as int + 32) as char else if c == '\U{212A}' then 'k' else c
  }

  function Lowered(s: string): (l: string)
    ensures |l| == |s| && forall k | 0 <= k < |s| :: l[k] == Lower(s[k])
  {
    if s == "" then "" else [Lower(s[0])] + Lowered(s[1..])
  }

  function Fold(c: char): char {
    if c == '\U{17F}' then 's' else Lower(c)
  }

  function Folded(s: string): (f: string)
    ensures |f| == |s| && forall k | 0 <= k < |s| :: f[k] == Fold(s[k])
  {
    if s == "" then "" else [Fold(s[0])] + Folded(s[1..])
  }

  function Upper(c: char): char {
    if 'a' <= c <= 'z' then (c as int - 32) as char else c
  }

  // The word, with some of its letters in upper case.
  predicate Cased(word: string, s: string) {
    |s| == |word| && forall i | 0 <= i < |s| :: s[i] == word[i] || s[i] == Upper(word[i])
  }

  // No upper case, and nothing outside of ASCII.
  predicate Plain(word: string) {
    forall i | 0 <= i < |word| :: word[i] < '\U{80}' && !('A' <= word[i] <= 'Z')
  }

  lemma CasedIsFolded(word: string, name: string, rest: string)
    requires Cased(word, name) && Plain(word)
    ensures word <= Folded(name + rest) && word == Folded(name) == Lowered(name)
  {
    assert forall i | 0 <= i < |word| :: Folded(name + rest)[i] == Fold(name[i]) == word[i];
  }

  predicate IsSpace(c: char) {
    || '\t' <= c <= '\r' || '\U{1C}' <= c <= ' ' || c == '\U{85}' || c == '\U{A0}' || c == '\U{1680}'
    || '\U{2000}' <= c <= '\U{200A}' || c == '\U{2028}' || c == '\U{2029}' || c == '\U{202F}'
    || c == '\U{205F}' || c == '\U{3000}'
  }

  function Strip(s: string): string {
    if s == "" then ""
    else if IsSpace(s[0]) then Strip(s[1..])
    else if IsSpace(s[|s| - 1]) then Strip(s[..|s| - 1])
    else s
  }
}
