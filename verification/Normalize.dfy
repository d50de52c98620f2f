// Raw messages of a captured conversation become normalized messages: calls get stable
// names, tool results get linked to the calls they answer.
module Normalize {
  import opened Basics
  import opened Trajectory
  import opened Identity
  import opened Text

  // ---------------------------------------------------------------- raw messages

  datatype RawCall = NotARawCall | RawCall(id: string, name: string, arguments: string)

  // A message with the fields normalization reads; "" where a field is missing.
  datatype Raw =
    | NotAMessage
    | Raw(id: string, role: string, name: string, link: string, parent: string, calls: seq<RawCall>,
          contentType: string, recipient: string, text: string, summary: string, rawCot: bool,
          final: bool, title: Option<string>)

  function RoleOf(raw: Raw): Role
    requires raw.Raw?
  {
    if raw.role == "user" then User
    else if raw.role == "tool" then ToolRole
    else if raw.role == "system" then System
    else Assistant
  }

  predicate IsToolMessage(raw: Raw) {
    raw.Raw? && RoleOf(raw) == ToolRole
  }

  function KindOf(raw: Raw, calls: seq<Call>): Kind
    requires raw.Raw?
  {
    var role := RoleOf(raw);
    if role == Assistant && raw.rawCot && raw.contentType == "thoughts" then ReasoningSummary
    else if role == User then UserPrompt
    else if role == ToolRole then ToolResult
    else if role == System then SystemText
    else if calls != [] then AssistantToolCall
    else if raw.final then AssistantFinal
    else AssistantMessage
  }

  // A reasoning summary without text is left out of the row.
  predicate Dropped(raw: Raw, calls: seq<Call>) {
    raw.Raw? && KindOf(raw, calls) == ReasoningSummary && raw.summary == ""
  }

  function MessageId(raw: Raw, index: nat): string
    requires raw.Raw?
  {
    if raw.id != "" then raw.id else "message:" + Digits(index)
  }

  // ---------------------------------------------------------------- the calls of a message

  type CallNames = map<string, string>

  function Naming(names: CallNames, aliases: map<string, set<string>>, id: string, alias: string): string {
    if id in names && names[id] != "" then names[id] else Resolve(aliases, alias)
  }

  // Names already known are kept.
  function Learned(names: CallNames, id: string, name: string): CallNames {
    if id in names then names else names[id := name]
  }

  function CallsUpTo(names: CallNames, aliases: map<string, set<string>>, index: nat, raw: Raw, k: nat)
    : (seq<Call>, CallNames)
    requires raw.Raw? && k <= |raw.calls|
  {
    if k == 0 then ([], names)
    else
      var (made, known) := CallsUpTo(names, aliases, index, raw, k - 1);
      var c := raw.calls[k - 1];
      if c.NotARawCall? then (made, known)
      else
        var id := if c.id != "" then c.id else MessageId(raw, index) + ":" + Digits(k - 1);
        var name := Naming(known, aliases, id, c.name);
        (made + [Call(id, name, c.arguments)], Learned(known, id, name))
  }

  predicate IsCodeCall(raw: Raw) {
    raw.Raw? && RoleOf(raw) == Assistant && raw.contentType == "code" && raw.recipient != "" && raw.recipient != "all"
  }

  function CallsOf(names: CallNames, aliases: map<string, set<string>>, index: nat, raw: Raw): (seq<Call>, CallNames) {
    if raw.NotAMessage? then ([], names)
    else
      var (made, known) := CallsUpTo(names, aliases, index, raw, |raw.calls|);
      if made == [] && IsCodeCall(raw) then
        var id := MessageId(raw, index);
        var name := Naming(known, aliases, id, raw.recipient);
        ([Call(id, name, raw.text)], Learned(known, id, name))
      else (made, known)
  }

  function Ids(calls: seq<Call>): (ids: seq<string>)
    ensures |ids| == |calls| && forall k | 0 <= k < |calls| :: ids[k] == calls[k].id
  {
    seq(|calls|, k requires 0 <= k < |calls| => calls[k].id)
  }

  // What the pass over the first n messages collects.
  datatype Index = Index(names: CallNames, made: seq<seq<Call>>, byMessage: map<string, seq<string>>)

  function Under(byMessage: map<string, seq<string>>, message: string): seq<string> {
    if message in byMessage then byMessage[message] else []
  }

  function Extended(ix: Index, raw: Raw, made: seq<Call>, names: CallNames): Index {
    Index(names, ix.made + [made],
          if raw.Raw? && made != [] && raw.id != ""
          then ix.byMessage[raw.id := Under(ix.byMessage, raw.id) + Ids(made)] else ix.byMessage)
  }

  function Indexed(maps: Maps, messages: seq<Raw>, n: nat): (ix: Index)
    requires n <= |messages|
    ensures |ix.made| == n
  {
    if n == 0 then Index(maps.names, [], map[])
    else
      var ix := Indexed(maps, messages, n - 1);
      var (made, names) := CallsOf(ix.names, maps.aliases, n - 1, messages[n - 1]);
      Extended(ix, messages[n - 1], made, names)
  }

  // Provenance may know of calls the raw message did not show.
  function Joined(known: seq<string>, more: seq<string>): seq<string>
  {
    if more == [] then known
    else
      var before := Joined(known, more[..|more| - 1]);
      if more[|more| - 1] in before then before else before + [more[|more| - 1]]
  }

  function WithMembers(byMessage: map<string, seq<string>>, members: map<string, seq<string>>)
    : map<string, seq<string>>
  {
    map m | m in byMessage.Keys + members.Keys ::
      if m in members then Joined(Under(byMessage, m), members[m]) else byMessage[m]
  }

  function FullIndex(maps: Maps, messages: seq<Raw>): (ix: Index)
    ensures |ix.made| == |messages|
  {
    var ix := Indexed(maps, messages, |messages|);
    ix.(byMessage := WithMembers(ix.byMessage, maps.members))
  }

  method IndexCalls(maps: Maps, messages: seq<Raw>) returns (ix: Index)
    ensures ix == FullIndex(maps, messages)
  {
    var names := maps.names;
    var made: seq<seq<Call>> := [];
    var byMessage: map<string, seq<string>> := map[];
    var i := 0;
    while i < |messages|
      invariant 0 <= i <= |messages|
      invariant Index(names, made, byMessage) == Indexed(maps, messages, i)
    {
      var raw := messages[i];
      var calls: seq<Call> := [];
      if raw.Raw? {
        calls, names := FindCalls(names, maps.aliases, i, raw);
        if calls != [] && raw.id != "" {
          byMessage := byMessage[raw.id := Under(byMessage, raw.id) + Ids(calls)];
        }
      }
      made := made + [calls];
      i := i + 1;
    }
    byMessage := AddMembers(byMessage, maps.members);
    ix := Index(names, made, byMessage);
  }

  method FindCalls(before: CallNames, aliases: map<string, set<string>>, index: nat, raw: Raw)
    returns (calls: seq<Call>, names: CallNames)
    requires raw.Raw?
    ensures (calls, names) == CallsOf(before, aliases, index, raw)
  {
    names, calls := before, [];
    var offset := 0;
    while offset < |raw.calls|
      invariant 0 <= offset <= |raw.calls|
      invariant (calls, names) == CallsUpTo(before, aliases, index, raw, offset)
    {
      var c := raw.calls[offset];
      if c.RawCall? {
        var id := c.id;
        if id == "" {
          id := MessageId(raw, index) + ":" + Digits(offset);
        }
        var name := Naming(names, aliases, id, c.name);
        names := Learned(names, id, name);
        calls := calls + [Call(id, name, c.arguments)];
      }
      offset := offset + 1;
    }
    if calls == [] && IsCodeCall(raw) {
      var id := MessageId(raw, index);
      var name := Naming(names, aliases, id, raw.recipient);
      names := Learned(names, id, name);
      calls := [Call(id, name, raw.text)];
    }
  }

  method AddMembers(before: map<string, seq<string>>, members: map<string, seq<string>>)
    returns (byMessage: map<string, seq<string>>)
    ensures byMessage == WithMembers(before, members)
  {
    byMessage := before;
    var rest := members.Keys;
    ghost var done: map<string, seq<string>> := map[];
    while rest != {}
      invariant rest <= members.Keys && done.Keys == members.Keys - rest
      invariant forall m | m in done :: done[m] == members[m]
      invariant byMessage == WithMembers(before, done)
      decreases |rest|
    {
      var m :| m in rest;
      var calls := JoinAll(Under(byMessage, m), members[m]);
      WithOneMore(before, done, m, members[m]);
      byMessage := byMessage[m := calls];
      done := done[m := members[m]];
      rest := rest - {m};
    }
    assert done == members;
  }

  method JoinAll(known: seq<string>, more: seq<string>) returns (calls: seq<string>)
    ensures calls == Joined(known, more)
  {
    calls := known;
    var i := 0;
    while i < |more|
      invariant 0 <= i <= |more|
      invariant calls == Joined(known, more[..i])
    {
      assert more[..i + 1][..i] == more[..i];
      if more[i] !in calls {
        calls := calls + [more[i]];
      }
      i := i + 1;
    }
    assert more[..i] == more;
  }

  lemma WithOneMore(before: map<string, seq<string>>, done: map<string, seq<string>>, m: string, more: seq<string>)
    requires m !in done
    ensures WithMembers(before, done[m := more]) ==
            WithMembers(before, done)[m := Joined(Under(WithMembers(before, done), m), more)]
  {
    assert Under(WithMembers(before, done), m) == Under(before, m);
  }

  // ---------------------------------------------------------------- linking a result

  datatype Pending = Pending(id: string, name: string, index: nat)

  function Open(ids: seq<string>, consumed: set<string>): seq<string> {
    if ids == [] then []
    else
      var rest := Open(ids[..|ids| - 1], consumed);
      if ids[|ids| - 1] in consumed then rest else rest + [ids[|ids| - 1]]
  }

  function Named(ids: seq<string>, names: CallNames, name: string): seq<string> {
    if ids == [] then []
    else
      var rest := Named(ids[..|ids| - 1], names, name);
      var id := ids[|ids| - 1];
      if id in names && names[id] == name then rest + [id] else rest
  }

  // The one call under the parent that fits, or "".
  function ParentLink(ix: Index, name: string, parent: string, consumed: set<string>): string {
    var candidates := Open(Under(ix.byMessage, parent), consumed);
    var same := Named(candidates, ix.names, name);
    if |same| == 1 then same[0] else if |candidates| == 1 then candidates[0] else ""
  }

  predicate Fits(p: Pending, index: nat, name: string, consumed: set<string>) {
    p.index < index && p.id !in consumed && (name == "" || p.name == name)
  }

  // The latest unanswered call that fits, or "".
  function LatestLink(unmatched: seq<Pending>, index: nat, name: string, consumed: set<string>): string {
    if unmatched == [] then ""
    else
      var p := unmatched[|unmatched| - 1];
      if Fits(p, index, name, consumed) then p.id else LatestLink(unmatched[..|unmatched| - 1], index, name, consumed)
  }

  function Link(maps: Maps, ix: Index, raw: Raw, index: nat, unmatched: seq<Pending>, consumed: set<string>): string
    requires raw.Raw?
  {
    if raw.link != "" || RoleOf(raw) != ToolRole then raw.link
    else if raw.id != "" && raw.id in maps.results && maps.results[raw.id] != "" then maps.results[raw.id]
    else
      var name := Resolve(maps.aliases, raw.name);
      var parent := ParentLink(ix, name, raw.parent, consumed);
      if parent != "" then parent else LatestLink(unmatched, index, name, consumed)
  }

  method FindLink(maps: Maps, ix: Index, raw: Raw, index: nat, unmatched: seq<Pending>, consumed: set<string>)
    returns (link: string)
    requires raw.Raw?
    ensures link == Link(maps, ix, raw, index, unmatched, consumed)
  {
    link := raw.link;
    if RoleOf(raw) != ToolRole {
      return;
    }
    if link == "" && raw.id != "" && raw.id in maps.results {
      link := maps.results[raw.id];
    }
    if link == "" {
      link := FindUnderParent(ix, Resolve(maps.aliases, raw.name), raw.parent, consumed);
    }
    if link == "" {
      var name := Resolve(maps.aliases, raw.name);
      var pos := |unmatched|;
      assert unmatched[..pos] == unmatched;
      while pos > 0
        invariant 0 <= pos <= |unmatched|
        invariant link == ""
        invariant LatestLink(unmatched, index, name, consumed) == LatestLink(unmatched[..pos], index, name, consumed)
      {
        pos := pos - 1;
        assert unmatched[..pos + 1][..pos] == unmatched[..pos];
        if Fits(unmatched[pos], index, name, consumed) {
          link := unmatched[pos].id;
          break;
        }
      }
    }
  }

  method FindUnderParent(ix: Index, name: string, parent: string, consumed: set<string>) returns (link: string)
    ensures link == ParentLink(ix, name, parent, consumed)
  {
    var ids := Under(ix.byMessage, parent);
    var candidates: seq<string> := [];
    var same: seq<string> := [];
    var i := 0;
    while i < |ids|
      invariant 0 <= i <= |ids|
      invariant candidates == Open(ids[..i], consumed)
      invariant same == Named(candidates, ix.names, name)
    {
      assert ids[..i + 1][..i] == ids[..i];
      if ids[i] !in consumed {
        assert (candidates + [ids[i]])[..|candidates|] == candidates;
        candidates := candidates + [ids[i]];
        if ids[i] in ix.names && ix.names[ids[i]] == name {
          same := same + [ids[i]];
        }
      }
      i := i + 1;
    }
    assert ids[..i] == ids;
    if |same| == 1 {
      link := same[0];
    } else if |candidates| == 1 {
      link := candidates[0];
    } else {
      link := "";
    }
  }

  // ---------------------------------------------------------------- the pass

  datatype Scan = Scan(unmatched: seq<Pending>, consumed: set<string>, out: seq<Message>)

  function Without(unmatched: seq<Pending>, id: string): seq<Pending> {
    if unmatched == [] then []
    else
      var rest := Without(unmatched[..|unmatched| - 1], id);
      var p := unmatched[|unmatched| - 1];
      if p.id == id then rest else rest + [p]
  }

  function PendingOf(calls: seq<Call>, index: nat): seq<Pending> {
    seq(|calls|, k requires 0 <= k < |calls| => Pending(calls[k].id, calls[k].name, index))
  }

  function NonEmpty(s: string): Option<string> {
    if s == "" then None else Some(s)
  }

  function NameOf(maps: Maps, ix: Index, raw: Raw, link: string): Option<string>
    requires raw.Raw?
  {
    if RoleOf(raw) == ToolRole && link != "" && link in ix.names then NonEmpty(ix.names[link])
    else if raw.name != "" then NonEmpty(Resolve(maps.aliases, raw.name))
    else None
  }

  function Normalized(maps: Maps, ix: Index, raw: Raw, calls: seq<Call>, link: string): Message
    requires raw.Raw?
  {
    var kind := KindOf(raw, calls);
    Message(RoleOf(raw), kind, if kind == ReasoningSummary then raw.summary else raw.text, raw.title,
            NameOf(maps, ix, raw, link), NonEmpty(link), calls)
  }

  function Next(maps: Maps, ix: Index, raw: Raw, index: nat, scan: Scan): Scan
    requires index < |ix.made|
  {
    if raw.NotAMessage? then scan
    else
      var calls := ix.made[index];
      var unmatched := scan.unmatched + PendingOf(calls, index);
      var link := Link(maps, ix, raw, index, unmatched, scan.consumed);
      var answers := RoleOf(raw) == ToolRole && link != "";
      Scan(if answers then Without(unmatched, link) else unmatched,
           if answers then scan.consumed + {link} else scan.consumed,
           if Dropped(raw, calls) then scan.out else scan.out + [Normalized(maps, ix, raw, calls, link)])
  }

  function Run(maps: Maps, ix: Index, messages: seq<Raw>, n: nat): Scan
    requires n <= |messages| == |ix.made|
  {
    if n == 0 then Scan([], {}, [])
    else Next(maps, ix, messages[n - 1], n - 1, Run(maps, ix, messages, n - 1))
  }

  function Rows(maps: Maps, messages: seq<Raw>): seq<Message> {
    Run(maps, FullIndex(maps, messages), messages, |messages|).out
  }

  method NormalizeMessages(messages: seq<Raw>, used: seq<Used>, apps: seq<App>) returns (out: seq<Message>, maps: Maps)
    ensures Describes(maps, apps, used) && out == Rows(maps, messages)
  {
    maps := IdentityMaps(used, apps);
    var ix := IndexCalls(maps, messages);
    out := [];
    var unmatched: seq<Pending> := [];
    var consumed: set<string> := {};
    var i := 0;
    while i < |messages|
      invariant 0 <= i <= |messages|
      invariant Scan(unmatched, consumed, out) == Run(maps, ix, messages, i)
    {
      var raw := messages[i];
      if raw.Raw? {
        var calls := ix.made[i];
        unmatched := unmatched + PendingOf(calls, i);
        var link := FindLink(maps, ix, raw, i, unmatched, consumed);
        if RoleOf(raw) == ToolRole && link != "" {
          consumed := consumed + {link};
          unmatched := Remove(unmatched, link);
        }
        if !Dropped(raw, calls) {
          out := out + [Normalized(maps, ix, raw, calls, link)];
        }
      }
      i := i + 1;
    }
  }

  method Remove(unmatched: seq<Pending>, id: string) returns (left: seq<Pending>)
    ensures left == Without(unmatched, id)
  {
    left := [];
    var i := 0;
    while i < |unmatched|
      invariant 0 <= i <= |unmatched|
      invariant left == Without(unmatched[..i], id)
    {
      assert unmatched[..i + 1][..i] == unmatched[..i];
      if unmatched[i].id != id {
        left := left + [unmatched[i]];
      }
      i := i + 1;
    }
    assert unmatched[..i] == unmatched;
  }
}
