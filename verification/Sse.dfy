// The server-sent-event parser.
module Sse {
  import opened Basics
  import opened Text

  datatype Event = Event(event: Option<string>, data: string)

  // ---------------------------------------------------------------- lines

  // str.replace("\r\n", "\n")
  function CrLfToLf(text: string): string {
    if text == "" then ""
    else if |text| >= 2 && text[0] == '\r' && text[1] == '\n' then "\n" + CrLfToLf(text[2..])
    else [text[0]] + CrLfToLf(text[1..])
  }

  // str.replace("\r", "\n")
  function CrToLf(text: string): string {
    seq(|text|, k requires 0 <= k < |text| => if text[k] == '\r' then '\n' else text[k])
  }

  function Normalized(text: string): string {
    CrToLf(CrLfToLf(text))
  }

  function Lines(text: string): (lines: seq<string>)
    ensures |lines| > 0
  {
    Split(text, '\n')
  }

  // ---------------------------------------------------------------- the parser

  datatype Parser = Parser(event: Option<string>, data: seq<string>, out: seq<Event>)

  function Flush(p: Parser): Parser {
    if p.event.None? && p.data == [] then p
    else Parser(None, [], p.out + [Event(p.event, Joined(p.data, '\n'))])
  }

  function Field(line: string): string {
    if ':' in line then line[..Place(line, ':')] else line
  }

  // The part after the first colon, without one leading space.
  function Value(line: string): string {
    if ':' !in line then ""
    else
      var value := line[Place(line, ':') + 1..];
      if value != "" && value[0] == ' ' then value[1..] else value
  }

  function Take(p: Parser, line: string): Parser {
    if line == "" then Flush(p)
    else if line[0] == ':' then p
    else if Field(line) == "event" then p.(event := Some(Value(line)))
    else if Field(line) == "data" then p.(data := p.data + [Value(line)])
    else p
  }

  function TakeAll(p: Parser, lines: seq<string>): Parser {
    if lines == [] then p else Take(TakeAll(p, lines[..|lines| - 1]), lines[|lines| - 1])
  }

  const START := Parser(None, [], [])

  function Parse(text: string): seq<Event> {
    Flush(TakeAll(START, Lines(Normalized(text)))).out
  }

  method ParseSse(text: string) returns (events: seq<Event>)
    ensures events == Parse(text)
  {
    events := [];
    var eventName: Option<string> := None;
    var dataLines: seq<string> := [];
    var normalized := CrToLf(CrLfToLf(text));
    var lines := Lines(normalized);
    var k := 0;
    while k < |lines|
      invariant 0 <= k <= |lines|
      invariant Parser(eventName, dataLines, events) == TakeAll(START, lines[..k])
    {
      assert lines[..k + 1][..k] == lines[..k];
      var line := lines[k];
      k := k + 1;
      if line == "" {
        if eventName.Some? || dataLines != [] {
          events := events + [Event(eventName, Joined(dataLines, '\n'))];
          eventName, dataLines := None, [];
        }
        continue;
      }
      if line[0] == ':' {
        continue;
      }
      var field, value := line, "";
      if ':' in line {
        field, value := line[..Place(line, ':')], line[Place(line, ':') + 1..];
        if value != "" && value[0] == ' ' {
          value := value[1..];
        }
      }
      if field == "event" {
        eventName := Some(value);
      } else if field == "data" {
        dataLines := dataLines + [value];
      }
    }
    assert lines[..k] == lines;
    if eventName.Some? || dataLines != [] {
      events := events + [Event(eventName, Joined(dataLines, '\n'))];
    }
  }

  // ---------------------------------------------------------------- line breaks

  lemma CrToLfBoth(a: string, b: string)
    ensures CrToLf(a + b) == CrToLf(a) + CrToLf(b)
  {
  }

  predicate EndsInCr(text: string) {
    text != "" && text[|text| - 1] == '\r'
  }

  // A carriage return at the end swallows the line feed that follows.
  lemma {:induction false} NormalizedBoth(a: string, b: string)
    ensures Normalized(a + "\n" + b) == Normalized(a) + (if EndsInCr(a) then "" else "\n") + Normalized(b)
    decreases |a|
  {
    hide Normalized;
    var all := a + "\n" + b;
    if a == "" {
      OthersAreNormalized(all);
      assert all == "\n" + b && all[1..] == b;
      EmptyIsNormalized();
    } else if a == "\r" {
      assert all[2..] == b;
      BreakIsNormalized(all);
      EmptyIsNormalized();
    } else if |a| >= 2 && a[0] == '\r' && a[1] == '\n' {
      assert all[2..] == a[2..] + "\n" + b;
      NormalizedBoth(a[2..], b);
      BreakIsNormalized(a);
      BreakIsNormalized(all);
    } else {
      assert all[0] == a[0] && all[1..] == a[1..] + "\n" + b;
      assert |a| >= 2 ==> all[1] == a[1];
      NormalizedBoth(a[1..], b);
      OthersAreNormalized(a);
      OthersAreNormalized(all);
    }
  }

  lemma EmptyIsNormalized()
    ensures Normalized("") == "" && Normalized("\r") == "\n" && CrToLf("\n") == "\n"
  {
    assert CrLfToLf("\r") == "\r" by {
      assert "\r"[1..] == "";
    }
  }

  lemma BreakIsNormalized(a: string)
    requires |a| >= 2 && a[0] == '\r' && a[1] == '\n'
    ensures Normalized(a) == "\n" + Normalized(a[2..])
  {
    CrToLfBoth("\n", CrLfToLf(a[2..]));
  }

  lemma OthersAreNormalized(a: string)
    requires a != "" && !(|a| >= 2 && a[0] == '\r' && a[1] == '\n')
    ensures Normalized(a) == CrToLf([a[0]]) + Normalized(a[1..])
  {
    CrToLfBoth([a[0]], CrLfToLf(a[1..]));
  }

  lemma {:induction false} LinesBoth(a: string, b: string)
    ensures Lines(a + "\n" + b) == Lines(a) + Lines(b)
    decreases |a|
  {
    hide Lines;
    var all := a + "\n" + b;
    if '\n' !in a {
      assert all[..|a|] == a && all[|a| + 1..] == b;
      LinesAt(all, |a|);
      LinesOfOne(a);
    } else {
      var k := Place(a, '\n');
      assert all[..k] == a[..k] && all[k + 1..] == a[k + 1..] + "\n" + b;
      LinesAt(all, k);
      LinesAt(a, k);
      LinesBoth(a[k + 1..], b);
    }
  }

  lemma LinesAt(text: string, k: nat)
    requires k < |text| && text[k] == '\n' && '\n' !in text[..k]
    ensures Lines(text) == [text[..k]] + Lines(text[k + 1..])
  {
    FirstPlace(text, '\n', k);
  }

  lemma LinesOfOne(text: string)
    requires '\n' !in text
    ensures Lines(text) == [text]
  {
  }

  lemma {:induction false} LastLine(text: string)
    ensures text != "" && text[|text| - 1] == '\n' ==> Lines(text)[|Lines(text)| - 1] == ""
    decreases |text|
  {
    hide Lines;
    if '\n' in text {
      var k := Place(text, '\n');
      LinesAt(text, k);
      if k + 1 < |text| {
        LastLine(text[k + 1..]);
      } else {
        LinesOfOne(text[k + 1..]);
      }
    }
  }

  // ---------------------------------------------------------------- splitting

  lemma {:induction false} TakeBoth(p: Parser, a: seq<string>, b: seq<string>)
    ensures TakeAll(p, a + b) == TakeAll(TakeAll(p, a), b)
  {
    if b == [] {
      assert a + b == a;
    } else {
      var n := |b| - 1;
      TakeBoth(p, a, b[..n]);
      assert (a + b)[..|a + b| - 1] == a + b[..n];
    }
  }

  lemma {:induction false} EarlierEventsStay(p: Parser, out: seq<Event>, lines: seq<string>)
    ensures TakeAll(p.(out := out + p.out), lines) == TakeAll(p, lines).(out := out + TakeAll(p, lines).out)
  {
    if lines != [] {
      EarlierEventsStay(p, out, lines[..|lines| - 1]);
      var q := TakeAll(p, lines[..|lines| - 1]);
      var e := Event(q.event, Joined(q.data, '\n'));
      assert out + (q.out + [e]) == (out + q.out) + [e];
    }
  }

  // A blank line separates what is before it from what is after it.
  lemma SplittingAtABlankLine(a: string, b: string)
    ensures Parse(a + "\n\n" + b) == Parse(a) + Parse(b)
  {
    var la, lb := Lines(Normalized(a)), Lines(Normalized(b));
    BlankLineBetween(a, b);
    hide Normalized, Lines, Take, Flush;
    var q := Flush(TakeAll(START, la));
    if EndsInCr(a) {
      TakeBoth(START, la, lb);
      BlankIsFlushed(START, la);
    } else {
      TakeBoth(START, la, [""] + lb);
      TakeBoth(TakeAll(START, la), [""], lb);
      BlankFlushes(TakeAll(START, la));
    }
    FlushClears(TakeAll(START, la));
    assert q == START.(out := q.out + START.out);
    EarlierEventsStay(START, q.out, lb);
    FlushAppends(TakeAll(START, lb), q.out);
  }

  lemma FlushClears(p: Parser)
    ensures Flush(p) == Parser(None, [], Flush(p).out)
  {
  }

  lemma FlushAppends(p: Parser, out: seq<Event>)
    ensures Flush(p.(out := out + p.out)) == Flush(p).(out := out + Flush(p).out)
  {
    var e := Event(p.event, Joined(p.data, '\n'));
    assert out + (p.out + [e]) == (out + p.out) + [e];
  }

  lemma BlankFlushes(p: Parser)
    ensures TakeAll(p, [""]) == Flush(p)
  {
    assert [""][..0] == [];
  }

  lemma BlankIsFlushed(p: Parser, lines: seq<string>)
    requires lines != [] && lines[|lines| - 1] == ""
    ensures TakeAll(p, lines) == Flush(TakeAll(p, lines))
  {
  }

  lemma BlankLineBetween(a: string, b: string)
    ensures var la, lb := Lines(Normalized(a)), Lines(Normalized(b));
            Lines(Normalized(a + "\n\n" + b)) == (if EndsInCr(a) then la + lb else la + ([""] + lb))
    ensures EndsInCr(a) ==> Lines(Normalized(a))[|Lines(Normalized(a))| - 1] == ""
  {
    var n, m := Normalized(a), Normalized(b);
    assert a + "\n\n" + b == a + "\n" + ("\n" + b);
    NormalizedBoth(a, "\n" + b);
    assert "\n" + b == "" + "\n" + b;
    NormalizedBoth("", b);
    assert Normalized("\n" + b) == "\n" + m;
    if EndsInCr(a) {
      assert Normalized(a + "\n\n" + b) == n + "\n" + m;
      LinesBoth(n, m);
      CrAtTheEnd(a);
      LastLine(n);
    } else {
      assert Normalized(a + "\n\n" + b) == n + "\n" + ("" + "\n" + m);
      LinesBoth(n, "" + "\n" + m);
      LinesBoth("", m);
      assert Lines("") == [""];
    }
  }

  lemma {:induction false} CrAtTheEnd(a: string)
    requires EndsInCr(a)
    ensures Normalized(a) != "" && Normalized(a)[|Normalized(a)| - 1] == '\n'
    decreases |a|
  {
    if a == "\r" {
      assert CrLfToLf("\r") == "\r" by {
        assert "\r"[1..] == "";
      }
    } else if |a| >= 2 && a[0] == '\r' && a[1] == '\n' {
      CrAtTheEnd(a[2..]);
      BreakIsNormalized(a);
    } else {
      CrAtTheEnd(a[1..]);
      OthersAreNormalized(a);
    }
  }

  // Unlike a parser after section 9.2.6 of the HTML Standard, this one emits a last block
  // that no blank line ends, and a block that names an event without data.
  lemma LastBlockIsEmitted(a: string)
    ensures Parse(a + "\n\n") == Parse(a)
  {
    SplittingAtABlankLine(a, "");
    assert a + "\n\n" + "" == a + "\n\n";
    assert Lines(Normalized("")) == [""];
    assert [""][..0] == [];
    assert Parse("") == [];
  }

  // ---------------------------------------------------------------- single lines

  predicate OneLine(line: string) {
    '\n' !in line && '\r' !in line
  }

  // A line between two others is taken after what is before it.
  lemma LineBetween(a: string, line: string, b: string)
    requires !EndsInCr(a) && OneLine(line)
    ensures Parse(a + "\n" + line + "\n" + b) ==
            Flush(TakeAll(Take(TakeAll(START, Lines(Normalized(a))), line), Lines(Normalized(b)))).out
  {
    hide Normalized, Lines, Take, Flush;
    var la, lb := Lines(Normalized(a)), Lines(Normalized(b));
    NormalizedBoth(a, line + "\n" + b);
    NormalizedBoth(line, b);
    NoCarriageReturn(line);
    assert a + "\n" + line + "\n" + b == a + "\n" + (line + "\n" + b);
    LinesBoth(Normalized(a), line + "\n" + Normalized(b));
    LinesBoth(line, Normalized(b));
    LinesOfOneLine(line);
    assert Normalized(a) + "\n" + line + "\n" + Normalized(b) == Normalized(a) + "\n" + (line + "\n" + Normalized(b));
    TakeBoth(START, la, [line] + lb);
    TakeBoth(TakeAll(START, la), [line], lb);
    assert [line][..0] == [];
  }

  lemma LinesOfOneLine(line: string)
    requires OneLine(line)
    ensures Lines(line) == [line]
  {
    LinesOfOne(line);
  }

  lemma NoLineBetween(a: string, b: string)
    requires !EndsInCr(a)
    ensures Parse(a + "\n" + b) == Flush(TakeAll(TakeAll(START, Lines(Normalized(a))), Lines(Normalized(b)))).out
  {
    hide Normalized, Lines, Take, Flush;
    NormalizedBoth(a, b);
    LinesBoth(Normalized(a), Normalized(b));
    TakeBoth(START, Lines(Normalized(a)), Lines(Normalized(b)));
  }

  // A comment, or a field of another name, changes nothing wherever it stands.
  lemma OtherLinesAreIgnored(a: string, line: string, b: string)
    requires !EndsInCr(a) && OneLine(line)
    requires line != "" && line !in {"event", "data"} && !("event:" <= line) && !("data:" <= line)
    ensures Parse(a + "\n" + line + "\n" + b) == Parse(a + "\n" + b)
  {
    LineBetween(a, line, b);
    NoLineBetween(a, b);
    var p := TakeAll(START, Lines(Normalized(a)));
    if ':' in line {
      var k := Place(line, ':');
      assert line == line[..k] + ":" + line[k + 1..];
    }
    assert Take(p, line) == p;
  }

  // One space after the colon is not part of the value, and a field without a colon is empty.
  lemma SpellingDoesNotMatter(a: string, name: string, value: string, b: string)
    requires !EndsInCr(a) && OneLine(value) && (name == "event" || name == "data")
    ensures value != "" && value[0] != ' ' ==>
              Parse(a + "\n" + (name + ":" + value) + "\n" + b) == Parse(a + "\n" + (name + ": " + value) + "\n" + b)
    ensures Parse(a + "\n" + name + "\n" + b) == Parse(a + "\n" + (name + ": ") + "\n" + b)
  {
    hide Parse, Take, TakeAll, Lines, Normalized, Flush;
    var p := TakeAll(START, Lines(Normalized(a)));
    LineBetween(a, name + ":" + value, b);
    LineBetween(a, name + ": " + value, b);
    LineBetween(a, name, b);
    LineBetween(a, name + ": ", b);
    TakesField(p, name, value);
    TakesField(p, name, "");
    assert name + ": " + "" == name + ": ";
    TakesTightField(p, name, value);
  }

  lemma TakesTightField(p: Parser, name: string, value: string)
    requires name == "data" || name == "event"
    ensures Take(p, name) == if name == "event" then p.(event := Some("")) else p.(data := p.data + [""])
    ensures value != "" && value[0] != ' ' ==>
              Take(p, name + ":" + value) ==
              if name == "event" then p.(event := Some(value)) else p.(data := p.data + [value])
  {
    var line := name + ":" + value;
    assert line[|name|] == ':' && line[..|name|] == name;
    FirstPlace(line, ':', |name|);
    assert line[|name| + 1..] == value;
  }

  // ---------------------------------------------------------------- the round trip

  // What can be printed: line breaks would end a name, and carriage returns would be lost.
  predicate Printable(e: Event) {
    && (e.event.Some? ==> '\n' !in e.event.value && '\r' !in e.event.value)
    && '\r' !in e.data
  }

  function DataLines(lines: seq<string>): seq<string> {
    seq(|lines|, k requires 0 <= k < |lines| => "data: " + lines[k])
  }

  function EventLines(e: Event): seq<string> {
    NameLines(e) + DataLines(Lines(e.data)) + [""]
  }

  function AllLines(events: seq<Event>): seq<string> {
    if events == [] then [] else AllLines(events[..|events| - 1]) + EventLines(events[|events| - 1])
  }

  function PrintLines(lines: seq<string>): string {
    if lines == [] then "" else PrintLines(lines[..|lines| - 1]) + lines[|lines| - 1] + "\n"
  }

  function Print(events: seq<Event>): string {
    PrintLines(AllLines(events))
  }

  lemma LinesOfPrinted(lines: seq<string>)
    requires forall k | 0 <= k < |lines| :: OneLine(lines[k])
    ensures Lines(Normalized(PrintLines(lines))) == lines + [""]
  {
    PrintedHasNone(lines);
    NoCarriageReturn(PrintLines(lines));
    PrintedSplits(lines);
  }

  lemma EmptyLine()
    ensures Lines("") == [""]
  {
  }

  lemma {:induction false} PrintedSplits(lines: seq<string>)
    requires forall k | 0 <= k < |lines| :: OneLine(lines[k])
    ensures Lines(PrintLines(lines)) == lines + [""]
  {
    hide Lines;
    EmptyLine();
    if lines != [] {
      var n := |lines| - 1;
      var before, last := PrintLines(lines[..n]), lines[n];
      PrintedSplits(lines[..n]);
      assert before + last + "\n" == (before + last) + "\n" + "";
      LinesBoth(before + last, "");
      OpenLine(lines[..n], last);
      assert lines[..n] + [last] == lines;
    }
  }

  // The text so far ends with a line break, so the next line starts a line.
  lemma OpenLine(lines: seq<string>, last: string)
    requires OneLine(last) && Lines(PrintLines(lines)) == lines + [""]
    ensures Lines(PrintLines(lines) + last) == lines + [last]
  {
    if lines == [] {
      assert "" + last == last;
    } else {
      var n := |lines| - 1;
      var text := PrintLines(lines[..n]) + lines[n];
      assert PrintLines(lines) + last == text + "\n" + last;
      LinesBoth(text, last);
      LinesBoth(text, "");
      assert text + "\n" + "" == PrintLines(lines);
      assert Lines(text) + [""] == lines + [""];
      assert Lines(text) == (Lines(text) + [""])[..|Lines(text)|];
    }
  }

  lemma {:induction false} PrintedHasNone(lines: seq<string>)
    requires forall k | 0 <= k < |lines| :: OneLine(lines[k])
    ensures '\r' !in PrintLines(lines)
  {
    if lines != [] {
      PrintedHasNone(lines[..|lines| - 1]);
    }
  }

  lemma {:induction false} NoCarriageReturn(text: string)
    ensures '\r' !in text ==> Normalized(text) == text
  {
    if text != "" && '\r' !in text {
      assert '\r' !in text[1..];
      NoCarriageReturn(text[1..]);
      assert text == [text[0]] + text[1..];
      NoCrLf(text);
    }
  }

  lemma {:induction false} NoCrLf(text: string)
    requires '\r' !in text
    ensures CrLfToLf(text) == text
  {
    if text != "" {
      assert '\r' !in text[1..];
      NoCrLf(text[1..]);
      assert text == [text[0]] + text[1..];
    }
  }

  lemma {:induction false} LinesAreLines(text: string)
    ensures forall k | 0 <= k < |Lines(text)| :: '\n' !in Lines(text)[k] && ('\r' !in text ==> '\r' !in Lines(text)[k])
    ensures Joined(Lines(text), '\n') == text
    decreases |text|
  {
    if '\n' in text {
      var k := Place(text, '\n');
      LinesAreLines(text[k + 1..]);
      assert text == text[..k] + "\n" + text[k + 1..];
      assert Lines(text)[1..] == Lines(text[k + 1..]);
    }
  }

  lemma TakesField(p: Parser, name: string, value: string)
    requires name == "data" || name == "event"
    ensures Take(p, name + ": " + value) ==
            if name == "event" then p.(event := Some(value)) else p.(data := p.data + [value])
  {
    var line := name + ": " + value;
    assert line[|name|] == ':' && line[..|name|] == name;
    var k := Place(line, ':');
    assert forall m | 0 <= m < k :: line[..k][m] == line[m];
    assert forall m | 0 <= m < |name| :: name[m] == line[m];
    assert k == |name|;
    assert line[|name| + 1..] == " " + value;
    assert (" " + value)[1..] == value;
  }

  lemma {:induction false} TakesData(p: Parser, lines: seq<string>)
    ensures TakeAll(p, DataLines(lines)) == p.(data := p.data + lines)
  {
    hide Take;
    if lines != [] {
      var n := |lines| - 1;
      TakesData(p, lines[..n]);
      assert DataLines(lines)[..n] == DataLines(lines[..n]);
      TakesField(p.(data := p.data + lines[..n]), "data", lines[n]);
      assert "data" + ": " == "data: ";
      assert DataLines(lines)[n] == "data: " + lines[n];
      assert p.data + lines[..n] + [lines[n]] == p.data + lines;
    } else {
      assert p.data + [] == p.data;
    }
  }

  lemma TakesEvent(out: seq<Event>, e: Event)
    ensures TakeAll(Parser(None, [], out), EventLines(e)) == Parser(None, [], out + [e])
  {
    var p := Parser(None, [], out);
    var data := DataLines(Lines(e.data));
    var q := Parser(e.event, [], out);
    var r := Parser(e.event, Lines(e.data), out);
    LinesAreLines(e.data);
    NameIsTaken(p, e);
    TakesData(q, Lines(e.data));
    hide Lines, Take, DataLines;
    assert [] + Lines(e.data) == Lines(e.data);
    TakeBoth(p, NameLines(e) + data, [""]);
    TakeBoth(p, NameLines(e), data);
    BlankFlushes(r);
  }

  function NameLines(e: Event): seq<string> {
    if e.event.Some? then ["event: " + e.event.value] else []
  }

  lemma NameIsTaken(p: Parser, e: Event)
    requires p.event.None?
    ensures TakeAll(p, NameLines(e)) == p.(event := e.event)
  {
    if e.event.Some? {
      TakesField(p, "event", e.event.value);
      assert "event" + ": " == "event: ";
      assert NameLines(e)[..0] == [];
    }
  }

  lemma {:induction false} TakesEvents(events: seq<Event>)
    ensures TakeAll(START, AllLines(events)) == Parser(None, [], events)
  {
    hide EventLines, Take;
    if events != [] {
      var n := |events| - 1;
      TakesEvents(events[..n]);
      TakeBoth(START, AllLines(events[..n]), EventLines(events[n]));
      TakesEvent(events[..n], events[n]);
      assert events[..n] + [events[n]] == events;
    }
  }

  lemma {:induction false} PrintedLines(events: seq<Event>)
    requires forall k | 0 <= k < |events| :: Printable(events[k])
    ensures forall k | 0 <= k < |AllLines(events)| :: OneLine(AllLines(events)[k])
  {
    if events != [] {
      var e := events[|events| - 1];
      PrintedLines(events[..|events| - 1]);
      LinesAreLines(e.data);
      forall k | 0 <= k < |EventLines(e)|
        ensures OneLine(EventLines(e)[k])
      {
        var data := DataLines(Lines(e.data));
        assert forall l | 0 <= l < |data| :: data[l] == "data: " + Lines(e.data)[l];
      }
    }
  }

  // Parsing what was printed gives back the events.
  lemma PrintedIsParsed(events: seq<Event>)
    requires forall k | 0 <= k < |events| :: Printable(events[k])
    ensures Parse(Print(events)) == events
  {
    var lines := AllLines(events);
    PrintedLines(events);
    LinesOfPrinted(lines);
    TakeBoth(START, lines, [""]);
    TakesEvents(events);
    assert [""][..0] == [];
  }
}
