// Text and key chords as key events of an emulated US keyboard.
module Keyboard {
  import opened Basics
  import opened Text

  // The qcodes in use.  Plain keys are the letters a-z and the digits 0-9.
  datatype Key =
    | Plain(c: int)
    | Spc | Minus | Equal | BracketLeft | BracketRight | Backslash | Semicolon | Apostrophe
    | Comma | Dot | Slash | GraveAccent | Ret | TabKey | Shift | Ctrl
    | Esc | BackspaceKey | Delete | Up | Down | Left | Right | Home | End | PgUp | PgDn | Alt | MetaL

  datatype Event = Event(key: Key, down: bool)

  // ---------------------------------------------------------------- the encoder

  predicate IsLower(c: int) { 97 <= c <= 122 }
  predicate IsUpper(c: int) { 65 <= c <= 90 }
  predicate IsDigit(c: int) { 48 <= c <= 57 }

  function Punct(c: int): Option<Key> {
    if c == 32 then Some(Spc)
    else if c == 45 then Some(Minus)
    else if c == 61 then Some(Equal)
    else if c == 91 then Some(BracketLeft)
    else if c == 93 then Some(BracketRight)
    else if c == 92 then Some(Backslash)
    else if c == 59 then Some(Semicolon)
    else if c == 39 then Some(Apostrophe)
    else if c == 44 then Some(Comma)
    else if c == 46 then Some(Dot)
    else if c == 47 then Some(Slash)
    else if c == 96 then Some(GraveAccent)
    else None
  }

  function Shifted(c: int): Option<Key> {
    if c == 126 then Some(GraveAccent)
    else if c == 33 then Some(Plain(49))
    else if c == 64 then Some(Plain(50))
    else if c == 35 then Some(Plain(51))
    else if c == 36 then Some(Plain(52))
    else if c == 37 then Some(Plain(53))
    else if c == 94 then Some(Plain(54))
    else if c == 38 then Some(Plain(55))
    else if c == 42 then Some(Plain(56))
    else if c == 40 then Some(Plain(57))
    else if c == 41 then Some(Plain(48))
    else if c == 95 then Some(Minus)
    else if c == 43 then Some(Equal)
    else if c == 123 then Some(BracketLeft)
    else if c == 125 then Some(BracketRight)
    else if c == 124 then Some(Backslash)
    else if c == 58 then Some(Semicolon)
    else if c == 34 then Some(Apostrophe)
    else if c == 60 then Some(Comma)
    else if c == 62 then Some(Dot)
    else if c == 63 then Some(Slash)
    else None
  }

  // The key of a code point below 128, and whether Shift is held.
  function KeyOf(c: int): Option<(Key, bool)> {
    if IsLower(c) then Some((Plain(c), false))
    else if IsUpper(c) then Some((Plain(c + 32), true))
    else if IsDigit(c) then Some((Plain(c), false))
    else if Punct(c).Some? then Some((Punct(c).value, false))
    else if Shifted(c).Some? then Some((Shifted(c).value, true))
    else if c == 10 then Some((Ret, false))
    else if c == 9 then Some((TabKey, false))
    else None
  }

  function Stroke(key: Key, shifted: bool): seq<Event> {
    (if shifted then [Event(Shift, true)] else []) + [Event(key, true), Event(key, false)] +
    (if shifted then [Event(Shift, false)] else [])
  }

  function HexDigit(d: nat): int
    requires d < 16
  {
    if d < 10 then 48 + d else 87 + d
  }

  function Hex(n: nat): seq<int> {
    if n < 16 then [HexDigit(n)] else Hex(n / 16) + [HexDigit(n % 16)]
  }

  const OPENING := [Event(Ctrl, true), Event(Shift, true), Event(Plain(117), true), Event(Plain(117), false),
                    Event(Shift, false), Event(Ctrl, false)]

  const CLOSING := [Event(Ret, true), Event(Ret, false)]

  // The events of the digits; every hex digit has a plain key.
  function DigitStrokes(digits: seq<int>): seq<Event> {
    if digits == [] then []
    else
      DigitStrokes(digits[..|digits| - 1]) +
      (var k := KeyOf(digits[|digits| - 1]); if k.Some? then Stroke(k.value.0, k.value.1) else [])
  }

  function Character(c: nat): Option<seq<Event>> {
    if KeyOf(c).Some? then Some(Stroke(KeyOf(c).value.0, KeyOf(c).value.1))
    else if c >= 128 then Some(OPENING + DigitStrokes(Hex(c)) + CLOSING)
    else None
  }

  // ---------------------------------------------------------------- the decoder

  // The desktop that receives the events: the keys held, the digits of a Unicode entry if
  // one is open, and the text so far.
  datatype Desktop = Desktop(held: set<Key>, entry: Option<nat>, text: seq<nat>)

  const IDLE := Desktop({}, None, [])

  // The character a key types.
  function CharOf(key: Key, shifted: bool): Option<nat> {
    match key
    case Plain(c) =>
      if IsLower(c) then Some(if shifted then c - 32 else c)
      else if IsDigit(c) then Some(if shifted then [41, 33, 64, 35, 36, 37, 94, 38, 42, 40][c - 48] else c)
      else None
    case Spc => Some(32)
    case Minus => Some(if shifted then 95 else 45)
    case Equal => Some(if shifted then 43 else 61)
    case BracketLeft => Some(if shifted then 123 else 91)
    case BracketRight => Some(if shifted then 125 else 93)
    case Backslash => Some(if shifted then 124 else 92)
    case Semicolon => Some(if shifted then 58 else 59)
    case Apostrophe => Some(if shifted then 34 else 39)
    case Comma => Some(if shifted then 60 else 44)
    case Dot => Some(if shifted then 62 else 46)
    case Slash => Some(if shifted then 63 else 47)
    case GraveAccent => Some(if shifted then 126 else 96)
    case Ret => Some(10)
    case TabKey => Some(9)
    case _ => None
  }

  function HexValue(key: Key): Option<nat> {
    if !key.Plain? then None
    else if IsDigit(key.c) then Some(key.c - 48)
    else if 97 <= key.c <= 102 then Some(key.c - 87)
    else None
  }

  function Press(d: Desktop, key: Key): Desktop {
    var held := d.held + {key};
    if d.entry.Some? then
      if key == Ret then Desktop(held, None, d.text + [d.entry.value])
      else if HexValue(key).Some? then Desktop(held, Some(16 * d.entry.value + HexValue(key).value), d.text)
      else Desktop(held, d.entry, d.text)
    else if Ctrl in d.held then
      if Shift in d.held && key == Plain(117) then Desktop(held, Some(0), d.text) else d.(held := held)
    else
      var c := CharOf(key, Shift in d.held);
      Desktop(held, None, if c.Some? then d.text + [c.value] else d.text)
  }

  function Receive(d: Desktop, e: Event): Desktop {
    if e.down then Press(d, e.key) else d.(held := d.held - {e.key})
  }

  function ReceiveAll(d: Desktop, events: seq<Event>): Desktop {
    if events == [] then d else Receive(ReceiveAll(d, events[..|events| - 1]), events[|events| - 1])
  }

  lemma {:induction false} ReceiveBoth(d: Desktop, a: seq<Event>, b: seq<Event>)
    ensures ReceiveAll(d, a + b) == ReceiveAll(ReceiveAll(d, a), b)
  {
    if b == [] {
      assert a + b == a;
    } else {
      var n := |b| - 1;
      ReceiveBoth(d, a, b[..n]);
      assert (a + b)[..|a + b| - 1] == a + b[..n];
    }
  }

  // ---------------------------------------------------------------- the round trip

  lemma TypedIsRead(c: nat)
    requires KeyOf(c).Some?
    ensures CharOf(KeyOf(c).value.0, KeyOf(c).value.1) == Some(c)
    ensures KeyOf(c).value.0 != Shift && KeyOf(c).value.0 != Ctrl
  {
  }

  lemma ReceiveOne(d: Desktop, e: Event)
    ensures ReceiveAll(d, [e]) == Receive(d, e)
  {
    assert [e][..0] == [];
  }

  lemma ReceiveTwo(d: Desktop, e: Event, f: Event)
    ensures ReceiveAll(d, [e, f]) == Receive(Receive(d, e), f)
  {
    ReceiveBoth(d, [e], [f]);
    ReceiveOne(d, e);
    ReceiveOne(Receive(d, e), f);
  }

  // A key pressed and released, with or without Shift, is one key press to the desktop.
  lemma StrokeIsPress(d: Desktop, key: Key, shifted: bool)
    requires d.held == {} && key != Shift
    ensures ReceiveAll(d, Stroke(key, shifted)) ==
            Press(if shifted then Press(d, Shift) else d, key).(held := {})
  {
    var before := if shifted then [Event(Shift, true)] else [];
    var after := if shifted then [Event(Shift, false)] else [];
    var both := [Event(key, true), Event(key, false)];
    var d1 := if shifted then Press(d, Shift) else d;
    ReceiveOne(d, Event(Shift, true));
    ReceiveTwo(d1, Event(key, true), Event(key, false));
    ReceiveBoth(d, before, both);
    var d2 := ReceiveAll(d1, both);
    ReceiveOne(d2, Event(Shift, false));
    ReceiveBoth(d, before + both, after);
    assert ReceiveAll(d, before + both) == d2;
    assert d2.held == if shifted then {Shift} else {};
    assert ReceiveAll(d2, after).held == {};
  }

  function HexNumber(digits: seq<int>): nat {
    if digits == [] then 0
    else
      var last := digits[|digits| - 1];
      16 * HexNumber(digits[..|digits| - 1]) +
      (if IsDigit(last) then last - 48 else if 97 <= last <= 102 then last - 87 else 0)
  }

  predicate AllHex(digits: seq<int>) {
    forall k | 0 <= k < |digits| :: IsDigit(digits[k]) || 97 <= digits[k] <= 102
  }

  lemma {:induction false} HexIsRead(n: nat)
    ensures AllHex(Hex(n)) && HexNumber(Hex(n)) == n
  {
    if n < 16 {
      assert [HexDigit(n)][..0] == [];
    } else {
      HexIsRead(n / 16);
      var digits := Hex(n / 16) + [HexDigit(n % 16)];
      assert digits[..|digits| - 1] == Hex(n / 16);
    }
  }

  lemma {:induction false} DigitsAreRead(text: seq<nat>, digits: seq<int>)
    requires AllHex(digits)
    ensures ReceiveAll(Desktop({}, Some(0), text), DigitStrokes(digits)) == Desktop({}, Some(HexNumber(digits)), text)
  {
    hide Stroke, Press, Receive, KeyOf;
    if digits != [] {
      var n := |digits| - 1;
      DigitsAreRead(text, digits[..n]);
      var d := Desktop({}, Some(HexNumber(digits[..n])), text);
      ReceiveBoth(Desktop({}, Some(0), text), DigitStrokes(digits[..n]), Stroke(Plain(digits[n]), false));
      StrokeIsPress(d, Plain(digits[n]), false);
      DigitIsRead(d, digits[n]);
    }
  }

  lemma DigitIsRead(d: Desktop, digit: int)
    requires d.entry.Some? && (IsDigit(digit) || 97 <= digit <= 102)
    ensures KeyOf(digit) == Some((Plain(digit), false))
    ensures Press(d, Plain(digit)).(held := {}) ==
            Desktop({}, Some(16 * d.entry.value + if IsDigit(digit) then digit - 48 else digit - 87), d.text)
  {
  }

  const MODIFIED := {Ctrl, Shift}

  lemma ModifiersGoDown(text: seq<nat>)
    ensures ReceiveAll(Desktop({}, None, text), [Event(Ctrl, true), Event(Shift, true)]) ==
            Desktop(MODIFIED, None, text)
  {
    ReceiveTwo(Desktop({}, None, text), Event(Ctrl, true), Event(Shift, true));
  }

  lemma EntryOpens(text: seq<nat>)
    ensures ReceiveAll(Desktop(MODIFIED, None, text), [Event(Plain(117), true), Event(Plain(117), false)]) ==
            Desktop(MODIFIED, Some(0), text)
  {
    ReceiveTwo(Desktop(MODIFIED, None, text), Event(Plain(117), true), Event(Plain(117), false));
    assert MODIFIED + {Plain(117)} - {Plain(117)} == MODIFIED;
  }

  lemma ModifiersGoUp(text: seq<nat>)
    ensures ReceiveAll(Desktop(MODIFIED, Some(0), text), [Event(Shift, false), Event(Ctrl, false)]) ==
            Desktop({}, Some(0), text)
  {
    ReceiveTwo(Desktop(MODIFIED, Some(0), text), Event(Shift, false), Event(Ctrl, false));
    assert MODIFIED - {Shift} - {Ctrl} == {};
  }

  lemma OpeningOpens(text: seq<nat>)
    ensures ReceiveAll(Desktop({}, None, text), OPENING) == Desktop({}, Some(0), text)
  {
    hide ReceiveAll;
    var d := Desktop({}, None, text);
    var (a, b, c) := ([Event(Ctrl, true), Event(Shift, true)], [Event(Plain(117), true), Event(Plain(117), false)],
                      [Event(Shift, false), Event(Ctrl, false)]);
    assert OPENING == a + b + c;
    ReceiveBoth(d, a + b, c);
    ReceiveBoth(d, a, b);
    ModifiersGoDown(text);
    EntryOpens(text);
    ModifiersGoUp(text);
  }

  // Typing one accepted character appends it to the text and leaves no key held.
  lemma CharacterIsRead(c: nat, text: seq<nat>)
    requires Character(c).Some?
    ensures ReceiveAll(Desktop({}, None, text), Character(c).value) == Desktop({}, None, text + [c])
  {
    if KeyOf(c).Some? {
      TypedIsRead(c);
      StrokeIsPress(Desktop({}, None, text), KeyOf(c).value.0, KeyOf(c).value.1);
    } else {
      CodePointIsRead(c, text);
    }
  }

  lemma CodePointIsRead(c: nat, text: seq<nat>)
    ensures ReceiveAll(Desktop({}, None, text), OPENING + DigitStrokes(Hex(c)) + CLOSING) ==
            Desktop({}, None, text + [c])
  {
    hide ReceiveAll, DigitStrokes, Hex;
    var d, digits := Desktop({}, None, text), Hex(c);
    HexIsRead(c);
    OpeningOpens(text);
    DigitsAreRead(text, digits);
    ReceiveBoth(d, OPENING + DigitStrokes(digits), CLOSING);
    ReceiveBoth(d, OPENING, DigitStrokes(digits));
    StrokeIsPress(Desktop({}, Some(c), text), Ret, false);
    assert Stroke(Ret, false) == CLOSING;
  }

  // Accepted: tab, newline, the printable ASCII characters, and everything from 128 up.
  lemma AcceptedCharacters(c: nat)
    ensures Character(c).Some? <==> c == 9 || c == 10 || 32 <= c <= 126 || c >= 128
  {
  }

  // ---------------------------------------------------------------- text events

  // The characters before the first one that is refused.
  function Accepted(text: seq<nat>): seq<nat> {
    if text == [] || Character(text[0]).None? then [] else [text[0]] + Accepted(text[1..])
  }

  lemma NothingReceived()
    ensures ReceiveAll(IDLE, []) == Desktop({}, None, [])
  {
  }

  // Characters are sent one by one, so a refused one leaves the ones before it typed.
  method TypeText(text: seq<nat>) returns (ok: bool, sent: seq<Event>)
    ensures ok <==> forall k | 0 <= k < |text| :: Character(text[k]).Some?
    ensures ReceiveAll(IDLE, sent) == Desktop({}, None, Accepted(text))
    ensures ok ==> Accepted(text) == text
  {
    hide Character, Receive, ReceiveAll;
    NothingReceived();
    sent := [];
    var k := 0;
    while k < |text|
      invariant 0 <= k <= |text|
      invariant forall l | 0 <= l < k :: Character(text[l]).Some?
      invariant ReceiveAll(IDLE, sent) == Desktop({}, None, text[..k])
      invariant Accepted(text) == text[..k] + Accepted(text[k..])
    {
      var events := Character(text[k]);
      if events.None? {
        return false, sent;
      }
      CharacterIsRead(text[k], text[..k]);
      ReceiveBoth(IDLE, sent, events.value);
      assert text[..k] + [text[k]] == text[..k + 1] && text[k..][1..] == text[k + 1..];
      sent := sent + events.value;
      k := k + 1;
    }
    assert text[..k] == text;
    return true, sent;
  }

  // ---------------------------------------------------------------- chords

  function Downs(codes: seq<Key>): seq<Event> {
    seq(|codes|, k requires 0 <= k < |codes| => Event(codes[k], true))
  }

  function Ups(codes: seq<Key>): seq<Event> {
    seq(|codes|, k requires 0 <= k < |codes| => Event(codes[|codes| - 1 - k], false))
  }

  function KeySet(codes: seq<Key>): set<Key> {
    set k | k in codes
  }

  lemma {:induction false} DownsHold(d: Desktop, codes: seq<Key>)
    ensures ReceiveAll(d, Downs(codes)).held == d.held + KeySet(codes)
  {
    if codes != [] {
      var n := |codes| - 1;
      DownsHold(d, codes[..n]);
      assert Downs(codes)[..n] == Downs(codes[..n]);
      assert KeySet(codes) == KeySet(codes[..n]) + {codes[n]};
    }
  }

  lemma {:induction false} UpsRelease(d: Desktop, events: seq<Event>)
    requires forall k | 0 <= k < |events| :: !events[k].down
    ensures ReceiveAll(d, events) == d.(held := d.held - set k | 0 <= k < |events| :: events[k].key)
  {
    if events != [] {
      var n := |events| - 1;
      UpsRelease(d, events[..n]);
      assert (set k | 0 <= k < |events| :: events[k].key) ==
             (set k | 0 <= k < n :: events[..n][k].key) + {events[n].key};
    }
  }

  // A chord holds exactly its keys when it is complete, and no key at its end, even when a
  // key is named twice.
  lemma ChordIsReleased(d: Desktop, codes: seq<Key>)
    requires d.held == {}
    ensures ReceiveAll(d, Downs(codes)).held == KeySet(codes)
    ensures ReceiveAll(d, Downs(codes) + Ups(codes)).held == {}
    ensures ReceiveAll(d, Downs(codes) + Ups(codes)).text == ReceiveAll(d, Downs(codes)).text
  {
    DownsHold(d, codes);
    ReceiveBoth(d, Downs(codes), Ups(codes));
    UpsRelease(ReceiveAll(d, Downs(codes)), Ups(codes));
    forall k | k in codes
      ensures k in set i | 0 <= i < |Ups(codes)| :: Ups(codes)[i].key
    {
      var i :| 0 <= i < |codes| && codes[i] == k;
      assert Ups(codes)[|codes| - 1 - i].key == k;
    }
  }

  // ---------------------------------------------------------------- key events

  const LABELS := map["enter" := Ret, "escape" := Esc, "tab" := TabKey, "backspace" := BackspaceKey,
                      "delete" := Delete, "arrowup" := Up, "arrowdown" := Down, "arrowleft" := Left,
                      "arrowright" := Right, "home" := Home, "end" := End, "pageup" := PgUp,
                      "pagedown" := PgDn, "control" := Ctrl, "alt" := Alt, "shift" := Shift,
                      "super" := MetaL, "space" := Spc]

  const CODES := map["ret" := Ret, "esc" := Esc, "tab" := TabKey, "backspace" := BackspaceKey,
                     "delete" := Delete, "up" := Up, "down" := Down, "left" := Left, "right" := Right,
                     "home" := Home, "end" := End, "pgup" := PgUp, "pgdn" := PgDn, "ctrl" := Ctrl,
                     "alt" := Alt, "shift" := Shift, "meta_l" := MetaL, "spc" := Spc]

  // A key is found by its label as by its code.
  lemma ArrowsAreCodes()
    ensures LABELS["arrowup"] == CODES["up"] && LABELS["arrowdown"] == CODES["down"]
    ensures LABELS["arrowleft"] == CODES["left"] && LABELS["arrowright"] == CODES["right"]
  {
  }

  lemma PagesAreCodes()
    ensures LABELS["pageup"] == CODES["pgup"] && LABELS["pagedown"] == CODES["pgdn"]
  {
  }

  lemma ControlsAreCodes()
    ensures LABELS["control"] == CODES["ctrl"] && LABELS["alt"] == CODES["alt"] && LABELS["shift"] == CODES["shift"]
    ensures LABELS["super"] == CODES["meta_l"] && LABELS["home"] == CODES["home"] && LABELS["end"] == CODES["end"]
  {
  }

  lemma EditKeysAreCodes()
    ensures LABELS["enter"] == CODES["ret"] && LABELS["escape"] == CODES["esc"] && LABELS["space"] == CODES["spc"]
  {
  }

  lemma TypingKeysAreCodes()
    ensures LABELS["tab"] == CODES["tab"] && LABELS["delete"] == CODES["delete"]
    ensures LABELS["backspace"] == CODES["backspace"]
  {
  }

  // The key a part of a chord names, in any case: by its label, by its code, or as a letter or
  // digit.
  function KeyNamed(part: string): Option<Key> {
    var code := Lowered(part);
    if Folded(part) in LABELS then Some(LABELS[Folded(part)])
    else if code in CODES then Some(CODES[code])
    else if |code| == 1 && (IsLower(code[0] as int) || IsDigit(code[0] as int)) then Some(Plain(code[0] as int))
    else None
  }

  // In any case, a label names its key, any other code its own, and a letter or a digit itself.
  lemma KeysInAnyCase(name: string, part: string)
    requires Text.Plain(name) && Cased(name, part)
    ensures name in LABELS ==> KeyNamed(part) == Some(LABELS[name])
    ensures name in CODES && name !in LABELS ==> KeyNamed(part) == Some(CODES[name])
    ensures |name| == 1 && ('a' <= name[0] <= 'z' || '0' <= name[0] <= '9') ==>
              KeyNamed(part) == Some(Key.Plain(name[0] as int))
    ensures |name| == 1 && !('a' <= name[0] <= 'z') && !('0' <= name[0] <= '9') ==> KeyNamed(part) == None
    ensures |name| != 1 && name !in LABELS && name !in CODES ==> KeyNamed(part) == None
  {
    CasedIsFolded(name, part, "");
    NamesAreLong(name);
  }

  lemma NamesAreLong(name: string)
    ensures name in LABELS || name in CODES ==> |name| > 1
  {
  }

  function Named(parts: seq<string>): (keys: seq<Option<Key>>)
    ensures |keys| == |parts| && forall k | 0 <= k < |parts| :: keys[k] == KeyNamed(parts[k])
  {
    seq(|parts|, k requires 0 <= k < |parts| => KeyNamed(parts[k]))
  }

  // Any named keys can be written as one chord.  The plus sign itself has no name.
  lemma ChordIsNamed(parts: seq<string>)
    requires parts != [] && forall k | 0 <= k < |parts| :: '+' !in parts[k]
    ensures Named(Split(Joined(parts, '+'), '+')) == Named(parts)
  {
    hide Named, KeyNamed;
    JoinedIsSplit(parts, '+');
  }

  datatype KeyKind = KeyChord | KeyDown | KeyUp

  // The key events of one input event; None where the source refuses the keys.
  method SendKeys(kind: KeyKind, value: Option<string>) returns (sent: Option<seq<Event>>)
    ensures sent.None? <==> value.None? || exists part :: part in Split(value.value, '+') && KeyNamed(part).None?
    ensures sent.Some? ==> IsSent(kind, Named(Split(value.value, '+')), sent.value)
  {
    if value.None? {
      return None;
    }
    var parts := Split(value.value, '+');
    var codes := Named(parts);
    assert None in codes <==> exists part :: part in parts && KeyNamed(part).None? by {
      if part :| part in parts && KeyNamed(part).None? {
        var k :| 0 <= k < |parts| && parts[k] == part;
        assert codes[k] == None;
      }
    }
    if None in codes {
      return None;
    }
    var events := Sent(kind, codes);
    return Some(events);
  }

  // A chord presses its keys in order, releases them in reverse order and leaves none held;
  // the other kinds hold and release exactly the named keys.
  ghost predicate IsSent(kind: KeyKind, codes: seq<Option<Key>>, sent: seq<Event>) {
    match kind
    case KeyChord =>
      && (forall d: Desktop | d.held == {} :: ReceiveAll(d, sent).held == {})
      && |sent| == 2 * |codes|
      && (forall i | 0 <= i < |codes| ::
            && sent[i].down && Some(sent[i].key) == codes[i]
            && sent[2 * |codes| - 1 - i] == Event(sent[i].key, false))
    case KeyDown =>
      forall d: Desktop, k: Key | d.held == {} :: k in ReceiveAll(d, sent).held <==> Some(k) in codes
    case KeyUp =>
      forall d: Desktop :: ReceiveAll(d, sent) == d.(held := set k | k in d.held && Some(k) !in codes)
  }

  method Sent(kind: KeyKind, codes: seq<Option<Key>>) returns (sent: seq<Event>)
    requires codes != [] && None !in codes
    ensures IsSent(kind, codes, sent)
  {
    var keys := seq(|codes|, k requires 0 <= k < |codes| => if codes[k].Some? then codes[k].value else Esc);
    assert forall k :: k in keys <==> Some(k) in codes by {
      assert forall i | 0 <= i < |codes| :: Some(keys[i]) == codes[i];
    }
    match kind {
      case KeyChord =>
        sent := Downs(keys) + Ups(keys);
        forall d: Desktop | d.held == {}
          ensures ReceiveAll(d, sent).held == {}
        {
          ChordIsReleased(d, keys);
        }
      case KeyDown =>
        sent := Downs(keys);
        forall d: Desktop | d.held == {}
          ensures ReceiveAll(d, sent).held == KeySet(keys)
        {
          DownsHold(d, keys);
        }
      case KeyUp =>
        var events := seq(|keys|, k requires 0 <= k < |keys| => Event(keys[k], false));
        sent := events;
        forall d: Desktop
          ensures ReceiveAll(d, sent) == d.(held := set k | k in d.held && Some(k) !in codes)
        {
          UpsRelease(d, events);
          assert forall i | 0 <= i < |keys| :: events[i].key == keys[i];
          assert (set i | 0 <= i < |events| :: events[i].key) == KeySet(keys);
        }
    }
  }
}
