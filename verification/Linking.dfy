// What the rows of a normalized conversation say: which message each of them comes from, what
// it holds of that message, and which call a result answers.
module Linking {
  import opened Basics
  import opened Trajectory
  import opened Identity
  import opened Normalize
  import opened Indexing

  // ---------------------------------------------------------------- answers

  // The calls that the results among these rows answer.
  function AnsweredIds(out: seq<Message>): set<string> {
    set q | 0 <= q < |out| && out[q].role == ToolRole && out[q].link.Some? :: out[q].link.value
  }

  lemma OneMoreAnswered(out: seq<Message>, row: Message)
    ensures AnsweredIds(out + [row]) ==
            AnsweredIds(out) + (if row.role == ToolRole && row.link.Some? then {row.link.value} else {})
  {
    var more := out + [row];
    assert more[|out|] == row;
    forall id | id in AnsweredIds(out)
      ensures id in AnsweredIds(more)
    {
      var q :| 0 <= q < |out| && out[q].role == ToolRole && out[q].link.Some? && out[q].link.value == id;
      assert more[q] == out[q];
    }
  }

  // ---------------------------------------------------------------- the calls under a parent

  predicate FreeAt(ids: seq<string>, consumed: set<string>, c: int) {
    0 <= c < |ids| && ids[c] !in consumed
  }

  predicate FitAt(ids: seq<string>, consumed: set<string>, names: CallNames, name: string, c: int) {
    FreeAt(ids, consumed, c) && ids[c] in names && names[ids[c]] == name
  }

  lemma {:induction false} OpenIsFree(ids: seq<string>, consumed: set<string>)
    ensures var open := Open(ids, consumed);
            && (open == [] <==> forall c :: !FreeAt(ids, consumed, c))
            && (|open| == 1 <==> exists c :: OnlyFree(ids, consumed, c))
            && (forall c | OnlyFree(ids, consumed, c) :: open == [ids[c]])
  {
    if ids != [] {
      var n := |ids| - 1;
      OpenIsFree(ids[..n], consumed);
      FreeBefore(ids, consumed);
      assert FreeAt(ids, consumed, n) ==>
          (OnlyFree(ids, consumed, n) <==> forall d :: !FreeAt(ids[..n], consumed, d));
    }
  }

  lemma FreeBefore(ids: seq<string>, consumed: set<string>)
    requires ids != []
    ensures var n := |ids| - 1;
            if FreeAt(ids, consumed, n) then
              forall c :: OnlyFree(ids, consumed, c) <==> c == n && forall d :: !FreeAt(ids[..n], consumed, d)
            else
              && (forall c :: OnlyFree(ids, consumed, c) <==> OnlyFree(ids[..n], consumed, c))
              && (forall c :: FreeAt(ids, consumed, c) <==> FreeAt(ids[..n], consumed, c))
  {
    var n := |ids| - 1;
    assert forall c :: FreeAt(ids, consumed, c) <==>
        FreeAt(ids[..n], consumed, c) || (c == n && FreeAt(ids, consumed, n));
    forall c
      ensures FreeAt(ids, consumed, n) ==>
                (OnlyFree(ids, consumed, c) <==> c == n && forall d :: !FreeAt(ids[..n], consumed, d))
    {
      if d :| FreeAt(ids[..n], consumed, d) {
        assert FreeAt(ids, consumed, d) && d != n;
      }
    }
  }

  ghost predicate OnlyFree(ids: seq<string>, consumed: set<string>, c: int) {
    FreeAt(ids, consumed, c) && forall d | FreeAt(ids, consumed, d) :: d == c
  }

  ghost predicate OnlyFit(ids: seq<string>, consumed: set<string>, names: CallNames, name: string, c: int) {
    FitAt(ids, consumed, names, name, c) && forall d | FitAt(ids, consumed, names, name, d) :: d == c
  }

  lemma {:induction false} NamedIsFit(ids: seq<string>, consumed: set<string>, names: CallNames, name: string)
    ensures var same := Named(Open(ids, consumed), names, name);
            && (same == [] <==> forall c :: !FitAt(ids, consumed, names, name, c))
            && (|same| == 1 <==> exists c :: OnlyFit(ids, consumed, names, name, c))
            && (forall c | OnlyFit(ids, consumed, names, name, c) :: same == [ids[c]])
  {
    if ids != [] {
      var n := |ids| - 1;
      NamedIsFit(ids[..n], consumed, names, name);
      assert forall c | c < n :: FitAt(ids, consumed, names, name, c) == FitAt(ids[..n], consumed, names, name, c);
      if FreeAt(ids, consumed, n) {
        assert Open(ids, consumed)[..|Open(ids, consumed)| - 1] == Open(ids[..n], consumed);
      }
      if FitAt(ids, consumed, names, name, n) {
        assert forall c | OnlyFit(ids, consumed, names, name, c) :: c == n;
        assert OnlyFit(ids, consumed, names, name, n) <==>
            forall c :: !FitAt(ids[..n], consumed, names, name, c);
      } else {
        assert forall c :: OnlyFit(ids, consumed, names, name, c) <==> OnlyFit(ids[..n], consumed, names, name, c);
      }
    }
  }

  // ---------------------------------------------------------------- the calls made earlier

  // A call is a message and a place in it.
  datatype Spot = Spot(m: nat, k: nat)

  predicate Precedes(a: Spot, b: Spot) {
    a.m < b.m || (a.m == b.m && a.k < b.k)
  }

  predicate IsSpot(ix: Index, n: nat, a: Spot) {
    a.m < n && a.m < |ix.made| && a.k < |ix.made[a.m]|
  }

  // The unmatched calls stand in the order in which they were made.
  ghost predicate Tracks(ix: Index, n: nat, unmatched: seq<Pending>, at: seq<Spot>) {
    && |at| == |unmatched|
    && (forall q, r | 0 <= q < r < |at| :: Precedes(at[q], at[r]))
    && (forall q | 0 <= q < |at| ::
          && IsSpot(ix, n, at[q])
          && var call := ix.made[at[q].m][at[q].k];
             unmatched[q] == Pending(call.id, call.name, at[q].m))
  }

  // Only answered calls are left out.
  ghost predicate Covers(ix: Index, n: nat, consumed: set<string>, at: seq<Spot>) {
    forall a | IsSpot(ix, n, a) :: a in at || ix.made[a.m][a.k].id in consumed
  }

  lemma OneMoreTracked(ix: Index, n: nat, unmatched: seq<Pending>, at: seq<Spot>, p: Pending, a: Spot)
    requires Tracks(ix, n, unmatched, at) && IsSpot(ix, n, a) && forall b | b in at :: Precedes(b, a)
    requires var call := ix.made[a.m][a.k]; p == Pending(call.id, call.name, a.m)
    ensures Tracks(ix, n, unmatched + [p], at + [a])
  {
  }

  lemma FewerTracked(ix: Index, n: nat, unmatched: seq<Pending>, at: seq<Spot>)
    requires Tracks(ix, n, unmatched, at) && |at| > 0
    ensures Tracks(ix, n, unmatched[..|at| - 1], at[..|at| - 1])
    ensures var a := at[|at| - 1];
            && IsSpot(ix, n, a) && (forall b | b in at[..|at| - 1] :: Precedes(b, a))
            && var call := ix.made[a.m][a.k];
               unmatched[|at| - 1] == Pending(call.id, call.name, a.m)
  {
  }

  lemma {:induction false} WithoutTracks(ix: Index, n: nat, unmatched: seq<Pending>, at: seq<Spot>, id: string)
    returns (at': seq<Spot>)
    requires Tracks(ix, n, unmatched, at)
    ensures Tracks(ix, n, Without(unmatched, id), at')
    ensures forall a | a in at' :: a in at
    ensures forall a | a in at && IsSpot(ix, n, a) && ix.made[a.m][a.k].id != id :: a in at'
  {
    hide Precedes, Tracks;
    SameLength(ix, n, unmatched, at);
    if unmatched == [] {
      at' := at;
    } else {
      var n' := |unmatched| - 1;
      FewerTracked(ix, n, unmatched, at);
      at' := WithoutTracks(ix, n, unmatched[..n'], at[..n'], id);
      assert at == at[..n'] + [at[n']];
      if unmatched[n'].id != id {
        OneMoreTracked(ix, n, Without(unmatched[..n'], id), at', unmatched[n'], at[n']);
        at' := at' + [at[n']];
      }
    }
  }

  lemma SameLength(ix: Index, n: nat, unmatched: seq<Pending>, at: seq<Spot>)
    requires Tracks(ix, n, unmatched, at)
    ensures |at| == |unmatched|
  {
  }

  lemma MoreTracks(ix: Index, n: nat, unmatched: seq<Pending>, consumed: set<string>, at: seq<Spot>)
    returns (at': seq<Spot>)
    requires n < |ix.made| && Tracks(ix, n, unmatched, at) && Covers(ix, n, consumed, at)
    ensures Tracks(ix, n + 1, unmatched + PendingOf(ix.made[n], n), at') && Covers(ix, n + 1, consumed, at')
  {
    var calls := ix.made[n];
    at' := at + seq(|calls|, k requires 0 <= k < |calls| => Spot(n, k));
    forall a | IsSpot(ix, n + 1, a)
      ensures a in at' || ix.made[a.m][a.k].id in consumed
    {
      if a.m == n {
        assert at'[|at| + a.k] == a;
      } else {
        assert IsSpot(ix, n, a);
      }
    }
  }

  lemma {:induction false} RunTracks(maps: Maps, ix: Index, messages: seq<Raw>, n: nat) returns (at: seq<Spot>)
    requires n <= |messages| == |ix.made|
    requires forall i | 0 <= i < n && messages[i].NotAMessage? :: ix.made[i] == []
    ensures var scan := Run(maps, ix, messages, n);
            Tracks(ix, n, scan.unmatched, at) && Covers(ix, n, scan.consumed, at)
  {
    hide Link, KindOf, Tracks, Covers;
    if n == 0 {
      at := [];
      NothingTracked(ix);
    } else {
      var scan := Run(maps, ix, messages, n - 1);
      at := RunTracks(maps, ix, messages, n - 1);
      at := MoreTracks(ix, n - 1, scan.unmatched, scan.consumed, at);
      assert scan.unmatched + [] == scan.unmatched;
      var raw := messages[n - 1];
      if raw.NotAMessage? {
        assert PendingOf(ix.made[n - 1], n - 1) == [];
      } else {
        var unmatched := scan.unmatched + PendingOf(ix.made[n - 1], n - 1);
        var link := Link(maps, ix, raw, n - 1, unmatched, scan.consumed);
        if RoleOf(raw) == ToolRole && link != "" {
          var left := WithoutTracks(ix, n, unmatched, at, link);
          LeftCovers(ix, n, scan.consumed, at, link, left);
          at := left;
        }
      }
    }
  }

  lemma NothingTracked(ix: Index)
    ensures Tracks(ix, 0, [], []) && forall consumed :: Covers(ix, 0, consumed, [])
  {
  }

  lemma LeftCovers(ix: Index, n: nat, consumed: set<string>, at: seq<Spot>, id: string, left: seq<Spot>)
    requires Covers(ix, n, consumed, at)
    requires forall a | a in at && IsSpot(ix, n, a) && ix.made[a.m][a.k].id != id :: a in left
    ensures Covers(ix, n, consumed + {id}, left)
  {
  }

  // An open call of an earlier message, with this name if a name is asked for.
  predicate Earlier(ix: Index, i: nat, name: string, consumed: set<string>, a: Spot) {
    IsSpot(ix, i, a) &&
    var call := ix.made[a.m][a.k];
    call.id !in consumed && (name == "" || call.name == name)
  }

  ghost predicate Latest(ix: Index, i: nat, name: string, consumed: set<string>, a: Spot) {
    Earlier(ix, i, name, consumed, a) && forall b | Earlier(ix, i, name, consumed, b) :: b == a || Precedes(b, a)
  }

  lemma {:induction false} LatestIsLast(ix: Index, i: nat, unmatched: seq<Pending>, at: seq<Spot>, name: string,
                                      consumed: set<string>)
    requires Tracks(ix, i + 1, unmatched, at)
    ensures var link := LatestLink(unmatched, i, name, consumed);
            && (forall a | a in at && Earlier(ix, i, name, consumed, a)
                           && forall b | b in at && Earlier(ix, i, name, consumed, b) :: b == a || Precedes(b, a) ::
                  link == ix.made[a.m][a.k].id)
            && ((forall a | a in at :: !Earlier(ix, i, name, consumed, a)) ==> link == "")
  {
    if unmatched != [] {
      var n := |unmatched| - 1;
      LatestIsLast(ix, i, unmatched[..n], at[..n], name, consumed);
      assert at == at[..n] + [at[n]];
      assert Fits(unmatched[n], i, name, consumed) <==> Earlier(ix, i, name, consumed, at[n]);
      assert forall b | b in at[..n] :: Precedes(b, at[n]);
    }
  }

  lemma LatestIs(ix: Index, i: nat, unmatched: seq<Pending>, at: seq<Spot>, name: string, consumed: set<string>)
    requires Tracks(ix, i + 1, unmatched, at) && Covers(ix, i + 1, consumed, at)
    ensures var link := LatestLink(unmatched, i, name, consumed);
            && (forall a | Latest(ix, i, name, consumed, a) :: link == ix.made[a.m][a.k].id)
            && ((forall a :: !Earlier(ix, i, name, consumed, a)) ==> link == "")
  {
    LatestIsLast(ix, i, unmatched, at, name, consumed);
    assert forall a | Earlier(ix, i, name, consumed, a) :: IsSpot(ix, i + 1, a) && a in at;
  }

  // ---------------------------------------------------------------- the link of one message

  // The call that a tool message without a link of its own and without provenance answers:
  // the only open call under its parent with its name, else the only open call there, else
  // the latest open call of an earlier message with its name.
  ghost predicate Guessed(ix: Index, i: nat, name: string, parent: string, consumed: set<string>, link: Option<string>)
  {
    var ids := Under(ix.byMessage, parent);
    if exists c :: OnlyFit(ids, consumed, ix.names, name, c) then
      forall c | OnlyFit(ids, consumed, ix.names, name, c) :: link == Some(ids[c])
    else if exists c :: OnlyFree(ids, consumed, c) then
      forall c | OnlyFree(ids, consumed, c) :: link == Some(ids[c])
    else
      && (forall a | Latest(ix, i, name, consumed, a) :: link == Some(ix.made[a.m][a.k].id))
      && ((forall a :: !Earlier(ix, i, name, consumed, a)) ==> link == None)
  }

  ghost predicate AllSet(ix: Index) {
    && (forall m, k | 0 <= m < |ix.made| && 0 <= k < |ix.made[m]| :: ix.made[m][k].id != "")
    && (forall m, id | m in ix.byMessage && id in ix.byMessage[m] :: id != "")
  }

  lemma GuessIs(ix: Index, i: nat, unmatched: seq<Pending>, at: seq<Spot>, name: string, parent: string,
                consumed: set<string>)
    requires Tracks(ix, i + 1, unmatched, at) && Covers(ix, i + 1, consumed, at) && AllSet(ix)
    ensures var found := ParentLink(ix, name, parent, consumed);
            var link := if found != "" then found else LatestLink(unmatched, i, name, consumed);
            Guessed(ix, i, name, parent, consumed, NonEmpty(link))
  {
    hide Tracks, Covers, OnlyFit, OnlyFree, Earlier, Latest;
    var ids := Under(ix.byMessage, parent);
    OpenIsFree(ids, consumed);
    NamedIsFit(ids, consumed, ix.names, name);
    LatestIs(ix, i, unmatched, at, name, consumed);
    OnlyIsListed(ids, consumed, ix.names, name);
    LatestIsSpot(ix, i, name, consumed);
    assert forall id | id in ids :: id != "";
    if c :| OnlyFit(ids, consumed, ix.names, name, c) {
      assert Named(Open(ids, consumed), ix.names, name) == [ids[c]] && ids[c] in ids;
      assert forall d | OnlyFit(ids, consumed, ix.names, name, d) ::
          Named(Open(ids, consumed), ix.names, name) == [ids[d]];
    } else if c :| OnlyFree(ids, consumed, c) {
      assert Open(ids, consumed) == [ids[c]] && ids[c] in ids;
      assert forall d | OnlyFree(ids, consumed, d) :: Open(ids, consumed) == [ids[d]];
    } else {
      assert ParentLink(ix, name, parent, consumed) == "";
    }
  }

  lemma OnlyIsListed(ids: seq<string>, consumed: set<string>, names: CallNames, name: string)
    ensures forall c | OnlyFit(ids, consumed, names, name, c) :: 0 <= c < |ids|
    ensures forall c | OnlyFree(ids, consumed, c) :: 0 <= c < |ids|
  {
  }

  lemma LatestIsSpot(ix: Index, i: nat, name: string, consumed: set<string>)
    ensures forall a | Latest(ix, i, name, consumed, a) :: IsSpot(ix, i, a)
  {
  }

  // ---------------------------------------------------------------- what a row holds

  predicate IsSummary(raw: Raw) {
    raw.Raw? && raw.role !in {"user", "tool", "system"} && raw.rawCot && raw.contentType == "thoughts"
  }

  // Everything but a reasoning summary without text is exported.
  predicate Kept(raw: Raw) {
    raw.Raw? && !(IsSummary(raw) && raw.summary == "")
  }

  predicate Holds(raw: Raw, calls: seq<Call>, row: Message)
    requires raw.Raw?
  {
    && (row.role == User <==> raw.role == "user") && (row.role == ToolRole <==> raw.role == "tool")
    && (row.role == System <==> raw.role == "system")
    && (row.kind == UserPrompt <==> raw.role == "user") && (row.kind == ToolResult <==> raw.role == "tool")
    && (row.kind == SystemText <==> raw.role == "system") && (row.kind == ReasoningSummary <==> IsSummary(raw))
    && (row.role == Assistant && !IsSummary(raw) ==>
          && (row.kind == AssistantToolCall <==> calls != [])
          && (row.kind == AssistantFinal <==> calls == [] && raw.final))
    && row.content == (if IsSummary(raw) then raw.summary else raw.text)
    && row.title == raw.title && row.calls == calls
  }

  // A result bears the name of the call it answers, any other message its own.
  predicate Titled(maps: Maps, names: CallNames, raw: Raw, row: Message)
    requires raw.Raw?
  {
    var name := if row.role == ToolRole && row.link.Some? && row.link.value in names then names[row.link.value]
                else if raw.name == "" then ""
                else Resolve(maps.aliases, raw.name);
    (row.name == None <==> name == "") && (row.name.Some? ==> row.name.value == name)
  }

  // Its own link, then provenance, then the guess.
  ghost predicate Linked(maps: Maps, ix: Index, raw: Raw, i: nat, before: set<string>, row: Message)
    requires raw.Raw?
  {
    if raw.link != "" then row.link == Some(raw.link)
    else if raw.role != "tool" then row.link == None
    else if raw.id != "" && raw.id in maps.results then row.link == Some(maps.results[raw.id])
    else Guessed(ix, i, Resolve(maps.aliases, raw.name), raw.parent, before, row.link)
  }

  // Row p comes from message from[p].
  ghost predicate RowsFrom(maps: Maps, ix: Index, messages: seq<Raw>, n: nat, from: seq<nat>, out: seq<Message>)
    requires n <= |messages| && n <= |ix.made|
  {
    && |from| == |out| && Increasing(from)
    && (forall i | 0 <= i < n && Kept(messages[i]) :: i in from)
    && forall p | 0 <= p < |out| ::
         && from[p] < n && Kept(messages[from[p]])
         && Holds(messages[from[p]], ix.made[from[p]], out[p])
         && Titled(maps, ix.names, messages[from[p]], out[p])
         && Linked(maps, ix, messages[from[p]], from[p], AnsweredIds(out[..p]), out[p])
  }

  lemma {:induction false} RunRows(maps: Maps, ix: Index, messages: seq<Raw>, n: nat)
    returns (from: seq<nat>)
    requires n <= |messages| == |ix.made| && AllSet(ix)
    requires forall i | 0 <= i < |messages| && messages[i].NotAMessage? :: ix.made[i] == []
    requires forall m | m in maps.results :: maps.results[m] != ""
    ensures var scan := Run(maps, ix, messages, n);
            RowsFrom(maps, ix, messages, n, from, scan.out) && scan.consumed == AnsweredIds(scan.out)
  {
    hide AllSet, Holds, Titled, Linked, Link, Increasing, RowsFrom, Kept, Dropped, Normalized, Guessed;
    if n == 0 {
      from := [];
      NoRows(maps, ix, messages);
    } else {
      from := RunRows(maps, ix, messages, n - 1);
      var raw, i := messages[n - 1], n - 1;
      var scan := Run(maps, ix, messages, i);
      KeptIsNotDropped(raw, ix.made[i]);
      if raw.Raw? {
        var at := RunTracks(maps, ix, messages, i);
        at := MoreTracks(ix, i, scan.unmatched, scan.consumed, at);
        var unmatched := scan.unmatched + PendingOf(ix.made[i], i);
        var link := Link(maps, ix, raw, i, unmatched, scan.consumed);
        RowIs(maps, ix, raw, i, unmatched, at, scan.consumed);
        OneMoreAnswered(scan.out, Normalized(maps, ix, raw, ix.made[i], link));
        if Kept(raw) {
          OneMoreRow(maps, ix, messages, i, from, scan.out, Normalized(maps, ix, raw, ix.made[i], link));
          from := from + [i];
        } else {
          NoMoreRow(maps, ix, messages, i, from, scan.out);
        }
      } else {
        NoMoreRow(maps, ix, messages, i, from, scan.out);
      }
    }
  }

  lemma NoRows(maps: Maps, ix: Index, messages: seq<Raw>)
    ensures RowsFrom(maps, ix, messages, 0, [], []) && AnsweredIds([]) == {}
  {
  }

  lemma KeptIsNotDropped(raw: Raw, calls: seq<Call>)
    ensures Kept(raw) <==> raw.Raw? && !Dropped(raw, calls)
    ensures raw.Raw? && RoleOf(raw) == ToolRole ==> Kept(raw)
  {
  }

  lemma RowIs(maps: Maps, ix: Index, raw: Raw, i: nat, unmatched: seq<Pending>, at: seq<Spot>, consumed: set<string>)
    requires raw.Raw? && i < |ix.made| && AllSet(ix)
    requires Tracks(ix, i + 1, unmatched, at) && Covers(ix, i + 1, consumed, at)
    requires forall m | m in maps.results :: maps.results[m] != ""
    ensures var link := Link(maps, ix, raw, i, unmatched, consumed);
            var row := Normalized(maps, ix, raw, ix.made[i], link);
            && Holds(raw, ix.made[i], row) && Titled(maps, ix.names, raw, row)
            && Linked(maps, ix, raw, i, consumed, row)
            && row.role == RoleOf(raw) && row.link == NonEmpty(link)
  {
    hide AllSet, Guessed, Tracks, Covers, ParentLink, LatestLink;
    GuessIs(ix, i, unmatched, at, Resolve(maps.aliases, raw.name), raw.parent, consumed);
  }

  lemma OneMoreRow(maps: Maps, ix: Index, messages: seq<Raw>, i: nat, from: seq<nat>, out: seq<Message>, row: Message)
    requires i < |messages| && i < |ix.made| && RowsFrom(maps, ix, messages, i, from, out) && Kept(messages[i])
    requires Holds(messages[i], ix.made[i], row) && Titled(maps, ix.names, messages[i], row)
    requires Linked(maps, ix, messages[i], i, AnsweredIds(out), row)
    ensures RowsFrom(maps, ix, messages, i + 1, from + [i], out + [row])
  {
    hide Holds, Titled, Linked, Kept;
    var out', from' := out + [row], from + [i];
    assert forall p | 0 <= p <= |out| :: out'[..p] == out[..p];
    assert from'[|from|] == i;
    forall j | 0 <= j < i + 1 && Kept(messages[j])
      ensures j in from'
    {
    }
  }

  lemma NoMoreRow(maps: Maps, ix: Index, messages: seq<Raw>, i: nat, from: seq<nat>, out: seq<Message>)
    requires i < |messages| && i < |ix.made| && RowsFrom(maps, ix, messages, i, from, out) && !Kept(messages[i])
    ensures RowsFrom(maps, ix, messages, i + 1, from, out)
  {
  }

  // ---------------------------------------------------------------- every conversation

  lemma {:induction false} ShownIsSet(messages: seq<Raw>, made: seq<seq<Call>>, m: string, n: nat, id: string)
    requires n <= |messages| && n <= |made| && id in ShownUnder(messages, made, m, n)
    ensures exists j, k :: 0 <= j < n && 0 <= k < |made[j]| && made[j][k].id == id
  {
    if id in ShownUnder(messages, made, m, n - 1) {
      ShownIsSet(messages, made, m, n - 1, id);
    } else {
      assert id in Ids(made[n - 1]);
    }
  }

  lemma IndexIsSet(maps: Maps, apps: seq<App>, used: seq<Used>, messages: seq<Raw>)
    requires Describes(maps, apps, used)
    ensures var ix := FullIndex(maps, messages);
            && AllSet(ix) && CallsOfAll(maps, messages, |messages|, ix)
            && NamesOf(maps, messages, |messages|, ix.names)
  {
    hide Shows, Called, NamesOf, Indexed, WithMembers;
    var ix := FullIndex(maps, messages);
    IndexHolds(maps, messages, |messages|);
    forall m, k | 0 <= m < |ix.made| && 0 <= k < |ix.made[m]|
      ensures ix.made[m][k].id != ""
    {
      CallHasId(messages[m], m, ix.made[m], k);
    }
    forall m, id | m in ix.byMessage && id in ix.byMessage[m]
      ensures id != ""
    {
      UnderIs(maps, messages, m, id);
      assert id in multiset(Under(ix.byMessage, m));
      if id in ShownUnder(messages, ix.made, m, |messages|) {
        ShownIsSet(messages, ix.made, m, |messages|, id);
      } else {
        assert Member(maps.members, m, id);
      }
    }
  }

  // The rows of any conversation, message by message: what each of them holds, the calls it
  // shows, their names, and the call it answers.  The last provenance entry of a result decides
  // its link; without one it is guessed.
  lemma ExportedRows(maps: Maps, apps: seq<App>, used: seq<Used>, messages: seq<Raw>) returns (from: seq<nat>)
    requires Describes(maps, apps, used)
    ensures var ix, out := FullIndex(maps, messages), Rows(maps, messages);
            && RowsFrom(maps, ix, messages, |messages|, from, out)
            && CallsOfAll(maps, messages, |messages|, ix) && NamesOf(maps, messages, |messages|, ix.names)
            && forall p | 0 <= p < |out| && messages[from[p]].role == "tool" && messages[from[p]].link == "" ::
                 var raw, name := messages[from[p]], Resolve(maps.aliases, messages[from[p]].name);
                 && (forall k | LastResult(used, |used|, raw.id, k) :: out[p].link == Some(used[k].callId))
                 && ((forall k :: !ResultAt(used, k, raw.id)) ==>
                       Guessed(ix, from[p], name, raw.parent, AnsweredIds(out[..p]), out[p].link))
  {
    hide AllSet, Holds, Titled, Guessed, Shows, Called, NamesOf, FullIndex, Run;
    var ix := FullIndex(maps, messages);
    IndexIsSet(maps, apps, used, messages);
    ResultsAreSet(maps, apps, used);
    forall i | 0 <= i < |messages| && messages[i].NotAMessage?
      ensures ix.made[i] == []
    {
      NothingIsShown(messages[i], i, ix.made[i]);
    }
    from := RunRows(maps, ix, messages, |messages|);
  }

  lemma NothingIsShown(raw: Raw, index: nat, calls: seq<Call>)
    requires Shows(raw, index, calls) && raw.NotAMessage?
    ensures calls == []
  {
  }

  lemma ResultsAreSet(maps: Maps, apps: seq<App>, used: seq<Used>)
    requires Describes(maps, apps, used)
    ensures forall m | m in maps.results :: maps.results[m] != "" && exists k :: ResultAt(used, k, m)
    ensures forall m, k | LastResult(used, |used|, m, k) ::
              m != "" && m in maps.results && maps.results[m] == used[k].callId
  {
    forall m, k | LastResult(used, |used|, m, k)
      ensures m != "" && m in maps.results && maps.results[m] == used[k].callId
    {
      var l :| LastResult(used, |used|, m, l) && maps.results[m] == used[l].callId;
      assert k == l;
    }
  }
}
