// Normalization followed by validation: when an exported row is accepted.
module Export {
  import opened Basics
  import opened Trajectory
  import opened Identity
  import opened Normalize
  import opened Validator

  // ---------------------------------------------------------------- calls and results, counted

  function Concat(made: seq<seq<Call>>): seq<Call> {
    if made == [] then [] else Concat(made[..|made| - 1]) + made[|made| - 1]
  }

  // The calls of the first n raw messages.
  function Made(ix: Index, n: nat): seq<Call>
    requires n <= |ix.made|
  {
    Concat(ix.made[..n])
  }

  function Flat(messages: seq<Message>): seq<Call> {
    if messages == [] then [] else Flat(messages[..|messages| - 1]) + messages[|messages| - 1].calls
  }

  function ToolsIn(messages: seq<Raw>, n: nat): nat
    requires n <= |messages|
  {
    if n == 0 then 0 else ToolsIn(messages, n - 1) + if IsToolMessage(messages[n - 1]) then 1 else 0
  }

  function Tools(messages: seq<Message>): nat {
    if messages == [] then 0
    else Tools(messages[..|messages| - 1]) + if messages[|messages| - 1].role == ToolRole then 1 else 0
  }

  predicate Distinct(ids: seq<string>) {
    forall k, l | 0 <= k < l < |ids| :: ids[k] != ids[l]
  }

  predicate Usable(names: seq<string>, calls: seq<Call>) {
    && (forall k | 0 <= k < |calls| :: calls[k].id != "" && calls[k].name in names)
    && Distinct(Ids(calls))
  }

  // Every result finds more calls than results before it, and at the end they are as many.
  predicate Balanced(messages: seq<Raw>, ix: Index)
    requires |ix.made| == |messages|
  {
    && (forall i | 0 <= i < |messages| && IsToolMessage(messages[i]) :: ToolsIn(messages, i) < |Made(ix, i)|)
    && ToolsIn(messages, |messages|) == |Made(ix, |messages|)|
  }

  // Message j has this id and makes calls.
  predicate Bearer(messages: seq<Raw>, ix: Index, j: int, id: string)
    requires |ix.made| == |messages|
  {
    0 <= j < |messages| && messages[j].Raw? && messages[j].id == id && ix.made[j] != []
  }

  // The parent of result i is borne by no earlier message.
  predicate ForwardParent(messages: seq<Raw>, ix: Index, i: int, j: int)
    requires |ix.made| == |messages|
  {
    && 0 <= i <= j < |messages| && IsToolMessage(messages[i]) && messages[i].parent != ""
    && Bearer(messages, ix, j, messages[i].parent)
  }

  predicate LoneForwardParent(messages: seq<Raw>, ix: Index, i: int, j: int)
    requires |ix.made| == |messages|
  {
    ForwardParent(messages, ix, i, j) && |ix.made[j]| == 1
  }

  ghost predicate NoLoneForwardParent(messages: seq<Raw>, ix: Index, n: int)
    requires |ix.made| == |messages|
  {
    forall i, j | i < n :: !LoneForwardParent(messages, ix, i, j)
  }

  // The name of a result, if it has one, does not change which call it is linked to.
  predicate Harmless(maps: Maps, messages: seq<Raw>, ix: Index, i: int)
    requires |ix.made| == |messages| && 0 <= i < |messages| && IsToolMessage(messages[i])
  {
    var scan := Run(maps, ix, messages, i);
    var unmatched := scan.unmatched + PendingOf(ix.made[i], i);
    Link(maps, ix, messages[i], i, unmatched, scan.consumed) ==
    Link(maps, ix, messages[i].(name := ""), i, unmatched, scan.consumed)
  }

  // Results carry no link and no name that changes it, no reasoning summary that is left out
  // carries calls, and a parent that comes at or after its result is the only message of its
  // id with calls.
  ghost predicate Plain(maps: Maps, messages: seq<Raw>, ix: Index)
    requires |ix.made| == |messages|
  {
    && (forall i | 0 <= i < |messages| && IsToolMessage(messages[i]) ::
          messages[i].link == "" && Harmless(maps, messages, ix, i))
    && (forall i | 0 <= i < |messages| :: Dropped(messages[i], ix.made[i]) ==> ix.made[i] == [])
    && (forall i, j, k | ForwardParent(messages, ix, i, j) && Bearer(messages, ix, k, messages[i].parent) :: k == j)
  }

  function IdSet(ids: seq<string>): set<string> {
    set id | id in ids
  }

  lemma {:induction false} DistinctCount(ids: seq<string>)
    requires Distinct(ids)
    ensures |IdSet(ids)| == |ids|
  {
    if ids != [] {
      var n := |ids| - 1;
      DistinctCount(ids[..n]);
      assert IdSet(ids) == IdSet(ids[..n]) + {ids[n]};
    }
  }

  lemma Fewer(s: set<string>, t: set<string>)
    requires s <= t
    ensures |s| <= |t|
    ensures |s| == |t| ==> s == t
  {
    assert t == s + (t - s);
  }

  // ---------------------------------------------------------------- flat lists and positions

  lemma {:induction false} FlatHas(messages: seq<Message>, k: nat) returns (i: nat, j: nat)
    requires k < |Flat(messages)|
    ensures IsCallAt(messages, i, j) && messages[i].calls[j] == Flat(messages)[k]
    decreases |messages|
  {
    var n := |messages| - 1;
    if k < |Flat(messages[..n])| {
      i, j := FlatHas(messages[..n], k);
    } else {
      i, j := n, k - |Flat(messages[..n])|;
    }
  }

  // The place of call (i, j) in the flat list.
  function Place(messages: seq<Message>, i: nat, j: nat): nat
    requires IsCallAt(messages, i, j)
  {
    |Flat(messages[..i])| + j
  }

  lemma {:induction false} FlatPlace(messages: seq<Message>, i: nat, j: nat)
    requires IsCallAt(messages, i, j)
    ensures Place(messages, i, j) < |Flat(messages)| && Flat(messages)[Place(messages, i, j)] == messages[i].calls[j]
    ensures Flat(messages[..i]) + messages[i].calls <= Flat(messages)
    decreases |messages|
  {
    var n := |messages| - 1;
    if i < n {
      assert messages[..n][..i] == messages[..i];
      FlatPlace(messages[..n], i, j);
    }
  }

  lemma {:induction false} FlatPrefix(messages: seq<Message>, n: nat)
    requires n <= |messages|
    ensures Flat(messages[..n]) <= Flat(messages) && Tools(messages[..n]) <= Tools(messages)
    decreases |messages|
  {
    if n == |messages| {
      assert messages[..n] == messages;
    } else {
      var m := |messages| - 1;
      assert messages[..m][..n] == messages[..n];
      FlatPrefix(messages[..m], n);
    }
  }

  lemma PlacesDiffer(messages: seq<Message>, i: nat, j: nat, n: nat, m: nat)
    requires IsCallAt(messages, i, j) && IsCallAt(messages, n, m) && Earlier(i, j, n, m)
    ensures Place(messages, i, j) < Place(messages, n, m) < |Flat(messages)|
  {
    FlatPlace(messages, n, m);
    if i < n {
      assert messages[..n][..i] == messages[..i];
      FlatPlace(messages[..n], i, j);
    }
  }

  lemma CallsOkFlat(names: seq<string>, messages: seq<Message>)
    ensures CallsOk(names, messages) <==> Usable(names, Flat(messages))
  {
    var flat := Flat(messages);
    if Usable(names, flat) {
      forall i, j | IsCallAt(messages, i, j)
        ensures messages[i].calls[j].id != "" && messages[i].calls[j].name in names
      {
        FlatPlace(messages, i, j);
      }
      forall i, j, n, m | IsCallAt(messages, i, j) && IsCallAt(messages, n, m) && Earlier(i, j, n, m)
        ensures messages[i].calls[j].id != messages[n].calls[m].id
      {
        FlatPlace(messages, i, j);
        FlatPlace(messages, n, m);
        PlacesDiffer(messages, i, j, n, m);
        assert Ids(flat)[Place(messages, i, j)] != Ids(flat)[Place(messages, n, m)];
      }
    }
    if CallsOk(names, messages) {
      forall k | 0 <= k < |flat|
        ensures flat[k].id != "" && flat[k].name in names
      {
        var i, j := FlatHas(messages, k);
      }
      FlatDistinct(messages);
    }
  }

  lemma {:induction false} FlatDistinct(messages: seq<Message>)
    requires forall i, j, n, m | IsCallAt(messages, i, j) && IsCallAt(messages, n, m) && Earlier(i, j, n, m) ::
               messages[i].calls[j].id != messages[n].calls[m].id
    ensures Distinct(Ids(Flat(messages)))
    decreases |messages|
  {
    if messages != [] {
      var n := |messages| - 1;
      var before := messages[..n];
      forall i, j, k, l | IsCallAt(before, i, j) && IsCallAt(before, k, l) && Earlier(i, j, k, l)
        ensures before[i].calls[j].id != before[k].calls[l].id
      {
        assert IsCallAt(messages, i, j) && IsCallAt(messages, k, l);
      }
      FlatDistinct(before);
      var ids := Ids(Flat(messages));
      forall k, l | 0 <= k < l < |ids|
        ensures ids[k] != ids[l]
      {
        var m := |Flat(before)|;
        if l < m {
          assert ids[k] == Ids(Flat(before))[k] && ids[l] == Ids(Flat(before))[l];
        } else if k < m {
          var i, j := FlatHas(before, k);
          assert IsCallAt(messages, i, j) && IsCallAt(messages, n, l - m) && Earlier(i, j, n, l - m);
        } else {
          assert IsCallAt(messages, n, k - m) && IsCallAt(messages, n, l - m) && Earlier(n, k - m, n, l - m);
        }
      }
    }
  }

  // ---------------------------------------------------------------- accepted rows are balanced

  function Links(messages: seq<Message>): seq<string> {
    if messages == [] then []
    else
      var last := messages[|messages| - 1];
      Links(messages[..|messages| - 1]) + if last.role == ToolRole then [GetOr(last.link, "")] else []
  }

  lemma {:induction false} LinksAreOf(messages: seq<Message>, n: nat)
    requires n <= |messages|
    requires forall k, l | IsTool(messages, k) && IsTool(messages, l) && k < l :: messages[k].link != messages[l].link
    requires forall k | IsTool(messages, k) :: messages[k].link.Some?
    ensures |Links(messages[..n])| == Tools(messages[..n])
    ensures forall id | id in Links(messages[..n]) ::
              exists k :: IsTool(messages, k) && k < n && messages[k].link == Some(id)
    ensures forall k | IsTool(messages, k) && k < n :: messages[k].link.value in Links(messages[..n])
    ensures Distinct(Links(messages[..n]))
  {
    if n > 0 {
      LinksAreOf(messages, n - 1);
      assert messages[..n][..n - 1] == messages[..n - 1];
    }
  }

  // The id a result links to is that of a call before it.
  lemma LinkIsMade(messages: seq<Message>, k: nat, i: nat, j: nat, q: nat)
    requires Answers(messages, k, i, j) && k <= q <= |messages|
    ensures messages[k].link.Some? && messages[k].link.value in Ids(Flat(messages[..q]))
  {
    assert IsCallAt(messages[..q], i, j);
    FlatPlace(messages[..q], i, j);
    assert Ids(Flat(messages[..q]))[Place(messages[..q], i, j)] == messages[i].calls[j].id;
  }

  lemma PairedLinks(messages: seq<Message>, q: nat)
    requires Paired(messages) && q <= |messages|
    ensures |Links(messages[..q])| == Tools(messages[..q]) && Distinct(Links(messages[..q]))
    ensures IdSet(Links(messages[..q])) <= IdSet(Ids(Flat(messages[..if q == 0 then 0 else q - 1])))
  {
    hide Answers;
    PairedHaveLinks(messages);
    LinksAreOf(messages, q);
    forall id | id in Links(messages[..q])
      ensures id in Ids(Flat(messages[..q - 1]))
    {
      var k :| IsTool(messages, k) && k < q && messages[k].link == Some(id);
      var i, j :| Answers(messages, k, i, j);
      AnswersAre(messages, k, i, j);
      LinkIsMade(messages, k, i, j, q - 1);
    }
  }

  lemma AnswersAre(messages: seq<Message>, k: int, i: int, j: int)
    requires Answers(messages, k, i, j)
    ensures IsTool(messages, k) && 0 <= i && 0 <= j && IsCallAt(messages, i, j)
    ensures messages[k].link == Some(messages[i].calls[j].id)
  {
  }

  lemma PrefixDistinct(messages: seq<Message>, q: nat)
    requires q <= |messages| && Distinct(Ids(Flat(messages)))
    ensures Distinct(Ids(Flat(messages[..q])))
  {
    FlatPrefix(messages, q);
    var ids := Ids(Flat(messages[..q]));
    assert forall k | 0 <= k < |ids| :: ids[k] == Ids(Flat(messages))[k];
  }

  lemma AcceptedIsBalanced(names: seq<string>, messages: seq<Message>, q: nat)
    requires WellStructured(names, messages) && q <= |messages|
    ensures IsTool(messages, q) ==> Tools(messages[..q]) < |Flat(messages[..q])|
    ensures Tools(messages) == |Flat(messages)|
  {
    CallsOkFlat(names, messages);
    hide Paired, CallsOk, Declared, Distinct;
    if IsTool(messages, q) {
      PairedLinks(messages, q + 1);
      PrefixDistinct(messages, q);
      assert messages[..q + 1][..q] == messages[..q];
      DistinctCount(Links(messages[..q + 1]));
      DistinctCount(Ids(Flat(messages[..q])));
      Fewer(IdSet(Links(messages[..q + 1])), IdSet(Ids(Flat(messages[..q]))));
    }
    AllAnswered(names, messages);
    DistinctCount(Links(messages));
    DistinctCount(Ids(Flat(messages)));
  }

  lemma PrefixIds(messages: seq<Message>, n: nat)
    requires n <= |messages|
    ensures IdSet(Ids(Flat(messages[..n]))) <= IdSet(Ids(Flat(messages)))
  {
    FlatPrefix(messages, n);
    assert forall k | 0 <= k < |Flat(messages[..n])| :: Ids(Flat(messages[..n]))[k] == Ids(Flat(messages))[k];
  }

  lemma AllAnswered(names: seq<string>, messages: seq<Message>)
    requires WellStructured(names, messages)
    ensures IdSet(Links(messages)) == IdSet(Ids(Flat(messages)))
    ensures |Links(messages)| == Tools(messages) && Distinct(Links(messages))
  {
    hide Paired, CallsOk, Declared, Links, Flat, Distinct;
    var n := |messages|;
    assert messages[..n] == messages;
    PairedLinks(messages, n);
    if n > 0 {
      PrefixIds(messages, n - 1);
    }
    forall id | id in Ids(Flat(messages))
      ensures id in Links(messages)
    {
      var p :| 0 <= p < |Flat(messages)| && Flat(messages)[p].id == id;
      CallHasLink(messages, p);
    }
  }

  lemma CallHasLink(messages: seq<Message>, p: nat)
    requires Paired(messages) && p < |Flat(messages)|
    ensures Flat(messages)[p].id in Links(messages)
  {
    hide Answers;
    var i, j := FlatHas(messages, p);
    var k :| Answers(messages, k, i, j);
    AnswersAre(messages, k, i, j);
    PairedHaveLinks(messages);
    LinksAreOf(messages, |messages|);
    assert messages[..|messages|] == messages;
  }

  lemma PairedHaveLinks(messages: seq<Message>)
    requires Paired(messages)
    ensures forall k | IsTool(messages, k) :: messages[k].link.Some?
  {
    hide Answers;
    forall k | IsTool(messages, k)
      ensures messages[k].link.Some?
    {
      var i, j :| Answers(messages, k, i, j);
      AnswersAre(messages, k, i, j);
    }
  }

  // ---------------------------------------------------------------- what the index knows

  lemma {:induction false} IndexGrows(maps: Maps, messages: seq<Raw>, n: nat, m: nat)
    requires n <= m <= |messages|
    ensures Indexed(maps, messages, n).made == Indexed(maps, messages, m).made[..n]
    decreases m
  {
    if n < m {
      IndexGrows(maps, messages, n, m - 1);
    }
  }

  lemma MadeStep(ix: Index, n: nat)
    requires n < |ix.made|
    ensures Made(ix, n + 1) == Made(ix, n) + ix.made[n]
  {
    assert ix.made[..n + 1][..n] == ix.made[..n];
  }

  // Every call of the list goes by its own name, and no other id has one.
  ghost predicate KnownAs(names: CallNames, calls: seq<Call>) {
    && (forall k | 0 <= k < |calls| :: calls[k].id in names && names[calls[k].id] == calls[k].name)
    && (forall id | id in names :: id in Ids(calls))
  }

  lemma {:induction false} MessageKnown(names: CallNames, aliases: map<string, set<string>>, index: nat, raw: Raw,
                                      k: nat, before: seq<Call>)
    requires raw.Raw? && k <= |raw.calls| && KnownAs(names, before)
    ensures var (made, names') := CallsUpTo(names, aliases, index, raw, k);
            Distinct(Ids(before + made)) ==> KnownAs(names', before + made)
  {
    if k == 0 {
      assert before + [] == before;
    } else {
      MessageKnown(names, aliases, index, raw, k - 1, before);
      var (made, known) := CallsUpTo(names, aliases, index, raw, k - 1);
      var (made', known') := CallsUpTo(names, aliases, index, raw, k);
      if made' != made {
        assert made' == made + [made'[|made|]];
        OneMoreKnown(known, before + made, made'[|made|], aliases, raw.calls[k - 1].name);
        assert before + made' == before + made + [made'[|made|]];
      }
    }
  }

  lemma OneMoreKnown(names: CallNames, calls: seq<Call>, c: Call, aliases: map<string, set<string>>, alias: string)
    requires Distinct(Ids(calls)) ==> KnownAs(names, calls)
    requires c.name == Naming(names, aliases, c.id, alias)
    ensures Distinct(Ids(calls + [c])) ==> KnownAs(Learned(names, c.id, c.name), calls + [c])
  {
    var calls' := calls + [c];
    var ids' := Ids(calls');
    if Distinct(ids') {
      assert forall k | 0 <= k < |calls| :: Ids(calls)[k] == ids'[k];
      assert Distinct(Ids(calls));
      assert forall k | 0 <= k < |calls| :: ids'[k] != ids'[|calls|];
      assert c.id !in Ids(calls);
      assert forall id | id in Ids(calls) :: id in ids';
      assert ids'[|calls|] == c.id;
    }
  }

  lemma NothingKnown()
    ensures KnownAs(map[], [])
  {
  }

  lemma {:induction false} IndexKnown(maps: Maps, messages: seq<Raw>, n: nat)
    requires n <= |messages| && maps.names == map[]
    ensures var ix := Indexed(maps, messages, n);
            Distinct(Ids(Made(ix, n))) ==> KnownAs(ix.names, Made(ix, n))
  {
    hide CallsOf, KnownAs;
    if n == 0 {
      NothingKnown();
    } else {
      var before := Indexed(maps, messages, n - 1);
      var ix := Indexed(maps, messages, n);
      var raw := messages[n - 1];
      IndexKnown(maps, messages, n - 1);
      IndexGrows(maps, messages, n - 1, n);
      MadeStep(ix, n - 1);
      assert before.made[..n - 1] == ix.made[..n - 1];
      var calls := Made(before, n - 1);
      if Distinct(Ids(Made(ix, n))) {
        assert forall k | 0 <= k < |calls| :: Ids(calls)[k] == Ids(Made(ix, n))[k];
        CallsKnown(before.names, maps.aliases, n - 1, raw, calls);
      }
    }
  }

  lemma CallsKnown(names: CallNames, aliases: map<string, set<string>>, index: nat, raw: Raw, calls: seq<Call>)
    requires KnownAs(names, calls)
    ensures var (made, names') := CallsOf(names, aliases, index, raw);
            Distinct(Ids(calls + made)) ==> KnownAs(names', calls + made)
  {
    assert calls + [] == calls;
    if raw.Raw? {
      MessageKnown(names, aliases, index, raw, |raw.calls|, calls);
      var (made, known) := CallsUpTo(names, aliases, index, raw, |raw.calls|);
      if made == [] && IsCodeCall(raw) {
        assert calls + made == calls;
        OneMoreKnown(known, calls, CallsOf(names, aliases, index, raw).0[0], aliases, raw.recipient);
      }
    }
  }

  // A call listed under a message id was made by a message with that id.
  ghost predicate ListedFrom(messages: seq<Raw>, ix: Index, n: nat, m: string, id: string)
    requires n <= |messages| && n <= |ix.made|
  {
    m != "" && exists j :: 0 <= j < n && messages[j].Raw? && messages[j].id == m && id in Ids(ix.made[j])
  }

  lemma {:induction false} IndexLists(maps: Maps, messages: seq<Raw>, n: nat, m: string, id: string)
    requires n <= |messages|
    requires id in Under(Indexed(maps, messages, n).byMessage, m)
    ensures ListedFrom(messages, Indexed(maps, messages, n), n, m, id)
  {
    var ix := Indexed(maps, messages, n);
    var before := Indexed(maps, messages, n - 1);
    IndexGrows(maps, messages, n - 1, n);
    if id in Under(before.byMessage, m) {
      IndexLists(maps, messages, n - 1, m, id);
      var j :| 0 <= j < n - 1 && messages[j].Raw? && messages[j].id == m && id in Ids(before.made[j]);
      assert ix.made[j] == before.made[j];
    } else {
      assert messages[n - 1].id == m && id in Ids(ix.made[n - 1]);
    }
  }

  lemma {:induction false} MadeHas(ix: Index, n: nat, j: nat, id: string)
    requires j < n <= |ix.made| && id in Ids(ix.made[j])
    ensures id in Ids(Made(ix, n))
  {
    MadeStep(ix, n - 1);
    var calls := Made(ix, n);
    if j < n - 1 {
      MadeHas(ix, n - 1, j, id);
      var k :| 0 <= k < |Made(ix, n - 1)| && Ids(Made(ix, n - 1))[k] == id;
      assert Ids(calls)[k] == id;
    } else {
      var k :| 0 <= k < |ix.made[j]| && Ids(ix.made[j])[k] == id;
      assert Ids(calls)[|Made(ix, n - 1)| + k] == id;
    }
  }

  // ---------------------------------------------------------------- the shape of the output

  lemma {:induction false} RunShape(maps: Maps, ix: Index, messages: seq<Raw>, n: nat)
    requires n <= |messages| == |ix.made|
    requires forall i | 0 <= i < |messages| && (Dropped(messages[i], ix.made[i]) || messages[i].NotAMessage?) ::
               ix.made[i] == []
    ensures var out := Run(maps, ix, messages, n).out;
            Flat(out) == Made(ix, n) && Tools(out) == ToolsIn(messages, n)
  {
    hide Next, Link, Flat, Tools;
    if n == 0 {
      NothingYet(ix);
    } else {
      RunShape(maps, ix, messages, n - 1);
      MadeStep(ix, n - 1);
      NextShape(maps, ix, messages[n - 1], n - 1, Run(maps, ix, messages, n - 1));
    }
  }

  lemma NothingYet(ix: Index)
    ensures Flat([]) == Made(ix, 0) && Tools([]) == 0
  {
  }

  lemma NextShape(maps: Maps, ix: Index, raw: Raw, index: nat, scan: Scan)
    requires index < |ix.made|
    requires Dropped(raw, ix.made[index]) || raw.NotAMessage? ==> ix.made[index] == []
    ensures var out := Next(maps, ix, raw, index, scan).out;
            && Flat(out) == Flat(scan.out) + ix.made[index]
            && Tools(out) == Tools(scan.out) + (if IsToolMessage(raw) then 1 else 0)
            && (out == scan.out
                || (|out| == |scan.out| + 1 && out[..|scan.out|] == scan.out
                    && raw.Raw? && out[|scan.out|].role == RoleOf(raw)))
            && (IsToolMessage(raw) ==> out != scan.out)
  {
    hide Link;
    var out := Next(maps, ix, raw, index, scan).out;
    if out != scan.out {
      assert out[..|out| - 1] == scan.out;
    }
  }

  lemma {:induction false} RunGrows(maps: Maps, ix: Index, messages: seq<Raw>, n: nat, m: nat)
    requires n <= m <= |messages| == |ix.made|
    ensures Run(maps, ix, messages, n).out <= Run(maps, ix, messages, m).out
    decreases m
  {
    if n < m {
      RunGrows(maps, ix, messages, n, m - 1);
    }
  }

  // ---------------------------------------------------------------- finding a link

  lemma {:induction false} OpenAre(ids: seq<string>, consumed: set<string>, id: string)
    ensures id in Open(ids, consumed) <==> id in ids && id !in consumed
  {
    if ids != [] {
      var n := |ids| - 1;
      OpenAre(ids[..n], consumed, id);
      assert ids == ids[..n] + [ids[n]];
    }
  }

  lemma {:induction false} NamedAre(ids: seq<string>, names: CallNames, name: string, id: string)
    requires id in Named(ids, names, name)
    ensures id in ids
  {
    var n := |ids| - 1;
    if id in Named(ids[..n], names, name) {
      NamedAre(ids[..n], names, name, id);
    }
  }

  lemma ParentLinkIs(ix: Index, name: string, parent: string, consumed: set<string>)
    ensures var link := ParentLink(ix, name, parent, consumed);
            link != "" ==> link in Under(ix.byMessage, parent) && link !in consumed
  {
    var link := ParentLink(ix, name, parent, consumed);
    var candidates := Open(Under(ix.byMessage, parent), consumed);
    if link in Named(candidates, ix.names, name) {
      NamedAre(candidates, ix.names, name, link);
    }
    OpenAre(Under(ix.byMessage, parent), consumed, link);
  }

  ghost predicate Pends(unmatched: seq<Pending>, id: string, n: int) {
    exists p :: p in unmatched && p.id == id && p.index < n
  }

  lemma {:induction false} LatestLinkIs(unmatched: seq<Pending>, index: nat, consumed: set<string>, id: string)
    requires forall p | p in unmatched :: p.id != ""
    requires Pends(unmatched, id, index) && id !in consumed
    ensures var link := LatestLink(unmatched, index, "", consumed);
            link != "" && link !in consumed && Pends(unmatched, link, index)
  {
    var n := |unmatched| - 1;
    var last := unmatched[n];
    assert unmatched == unmatched[..n] + [last];
    if !Fits(last, index, "", consumed) {
      assert Pends(unmatched[..n], id, index);
      LatestLinkIs(unmatched[..n], index, consumed, id);
    }
  }

  lemma {:induction false} WithoutAre(unmatched: seq<Pending>, id: string, p: Pending)
    ensures p in Without(unmatched, id) <==> p in unmatched && p.id != id
  {
    if unmatched != [] {
      var n := |unmatched| - 1;
      WithoutAre(unmatched[..n], id, p);
      assert unmatched == unmatched[..n] + [unmatched[n]];
    }
  }

  // ---------------------------------------------------------------- the state of the pass

  // No call provenance, and the messages are plain.
  ghost predicate Given(maps: Maps, messages: seq<Raw>, ix: Index) {
    && ix == Indexed(maps, messages, |messages|) && Plain(maps, messages, ix)
    && maps.names == map[] && maps.results == map[] && "" !in maps.aliases
  }

  // The unanswered calls so far are exactly the pending ones.
  ghost predicate Tracked(ix: Index, n: nat, consumed: set<string>, unmatched: seq<Pending>)
    requires n <= |ix.made|
  {
    && (forall id | id in consumed :: id in Ids(Made(ix, n)))
    && (forall id | id in Ids(Made(ix, n)) :: id in consumed || Pends(unmatched, id, n))
    && (forall p | p in unmatched :: p.index < n && p.id !in consumed && p.id in Ids(Made(ix, n)))
  }

  lemma CallsPend(ix: Index, n: nat, consumed: set<string>, unmatched: seq<Pending>)
    requires n < |ix.made| && Tracked(ix, n, consumed, unmatched) && Distinct(Ids(Made(ix, n + 1)))
    ensures Tracked(ix, n + 1, consumed, unmatched + PendingOf(ix.made[n], n))
    ensures forall id | id in Ids(ix.made[n]) :: id !in Ids(Made(ix, n))
  {
    MadeStep(ix, n);
    var before, calls := Ids(Made(ix, n)), Ids(Made(ix, n + 1));
    var unmatched' := unmatched + PendingOf(ix.made[n], n);
    assert calls == before + Ids(ix.made[n]);
    forall id | id in Ids(ix.made[n])
      ensures id !in before && Pends(unmatched', id, n + 1)
    {
      var k :| 0 <= k < |ix.made[n]| && Ids(ix.made[n])[k] == id;
      assert calls[|before| + k] == id && forall l | 0 <= l < |before| :: calls[l] == before[l];
      assert PendingOf(ix.made[n], n)[k] in unmatched';
    }
    forall id | id in before
      ensures id in consumed || Pends(unmatched', id, n + 1)
    {
      if id !in consumed {
        var p :| p in unmatched && p.id == id && p.index < n;
        assert p in unmatched';
      }
    }
    forall p | p in unmatched'
      ensures p.index < n + 1 && p.id !in consumed && p.id in calls
    {
      if p in PendingOf(ix.made[n], n) {
        var k :| 0 <= k < |ix.made[n]| && PendingOf(ix.made[n], n)[k] == p;
        assert Ids(ix.made[n])[k] == p.id;
      }
    }
  }

  lemma LinkTracked(ix: Index, n: nat, consumed: set<string>, unmatched: seq<Pending>, link: string)
    requires n <= |ix.made| && Tracked(ix, n, consumed, unmatched)
    requires link in Ids(Made(ix, n)) && link !in consumed
    ensures Tracked(ix, n, consumed + {link}, Without(unmatched, link))
  {
    forall p: Pending
      ensures p in Without(unmatched, link) <==> p in unmatched && p.id != link
    {
      WithoutAre(unmatched, link, p);
    }
    forall id | id in Ids(Made(ix, n)) && id !in consumed + {link}
      ensures Pends(Without(unmatched, link), id, n)
    {
      var p :| p in unmatched && p.id == id && p.index < n;
      assert p in Without(unmatched, link);
    }
  }

  lemma {:induction false} UnderOnlyBearer(maps: Maps, messages: seq<Raw>, n: nat, id: string, j: nat)
    requires n <= |messages| && id != ""
    requires forall k | 0 <= k < n && messages[k].Raw? && messages[k].id == id && k != j ::
               Indexed(maps, messages, n).made[k] == []
    requires j < n ==> messages[j].Raw? && messages[j].id == id
    ensures var ix := Indexed(maps, messages, n);
            Under(ix.byMessage, id) == if j < n then Ids(ix.made[j]) else []
  {
    hide Indexed, Under, Ids;
    if n == 0 {
      NothingUnder(maps, messages, id);
    } else {
      IndexStep(maps, messages, n - 1, id);
      UnderOnlyBearer(maps, messages, n - 1, id, j);
      NoIds();
    }
  }

  lemma NothingUnder(maps: Maps, messages: seq<Raw>, id: string)
    ensures Under(Indexed(maps, messages, 0).byMessage, id) == []
  {
  }

  // One more message adds its calls under its own id.
  lemma IndexStep(maps: Maps, messages: seq<Raw>, n: nat, id: string)
    requires n < |messages| && id != ""
    ensures var ix, before := Indexed(maps, messages, n + 1), Indexed(maps, messages, n);
            && ix.made[..n] == before.made && (forall k | 0 <= k < n :: ix.made[k] == before.made[k])
            && Under(ix.byMessage, id) ==
                 Under(before.byMessage, id) +
                 if messages[n].Raw? && messages[n].id == id then Ids(ix.made[n]) else []
  {
    hide CallsOf;
    NoIds();
  }

  lemma NoIds()
    ensures Ids([]) == []
  {
  }

  lemma {:induction false} OpenAll(ids: seq<string>, consumed: set<string>)
    requires forall id | id in ids :: id !in consumed
    ensures Open(ids, consumed) == ids
  {
    if ids != [] {
      var n := |ids| - 1;
      OpenAll(ids[..n], consumed);
      assert ids == ids[..n] + [ids[n]];
    }
  }

  lemma {:induction false} NoneIsUnnamed(ids: seq<string>, names: CallNames)
    requires forall id | id in ids && id in names :: names[id] != ""
    ensures Named(ids, names, "") == []
  {
    if ids != [] {
      NoneIsUnnamed(ids[..|ids| - 1], names);
    }
  }

  lemma LaterIsNew(names: seq<string>, ix: Index, n: nat, j: nat, id: string)
    requires n <= j < |ix.made| && Usable(names, Made(ix, |ix.made|)) && id in Ids(ix.made[j])
    ensures id !in Ids(Made(ix, n))
  {
    MadeGrows(ix, j + 1, |ix.made|);
    MadeGrows(ix, n, j);
    MadeStep(ix, j);
    var calls := Made(ix, |ix.made|);
    var k :| 0 <= k < |ix.made[j]| && Ids(ix.made[j])[k] == id;
    assert calls[|Made(ix, j)| + k] == ix.made[j][k];
    forall l | 0 <= l < |Made(ix, n)|
      ensures Ids(Made(ix, n))[l] != id
    {
      assert Ids(calls)[l] != Ids(calls)[|Made(ix, j)| + k];
    }
  }

  // A parent that comes at or after its result gives its call when it has one, and none
  // when it has more.
  lemma ForwardParentLink(maps: Maps, messages: seq<Raw>, ix: Index, names: seq<string>, i: nat, j: nat,
                          consumed: set<string>)
    requires |messages| == |ix.made| && Given(maps, messages, ix) && ForwardParent(messages, ix, i, j)
    requires Declared(names) && Usable(names, Made(ix, |messages|))
    requires forall id | id in consumed :: id in Ids(Made(ix, i))
    ensures ParentLink(ix, "", messages[i].parent, consumed) == if |ix.made[j]| == 1 then ix.made[j][0].id else ""
  {
    var p := messages[i].parent;
    var ids := Ids(ix.made[j]);
    OnlyBearer(maps, messages, ix, i, j);
    UnderOnlyBearer(maps, messages, |messages|, p, j);
    forall id | id in ids
      ensures id !in consumed && (id in ix.names ==> ix.names[id] != "")
    {
      LaterIsNew(names, ix, i, j, id);
      NameIsDeclared(maps, messages, ix, names, j, id);
    }
    OpenAll(ids, consumed);
    NoneIsUnnamed(ids, ix.names);
  }

  lemma OnlyBearer(maps: Maps, messages: seq<Raw>, ix: Index, i: nat, j: nat)
    requires |messages| == |ix.made| && Plain(maps, messages, ix) && ForwardParent(messages, ix, i, j)
    ensures forall k | 0 <= k < |messages| && messages[k].Raw? && messages[k].id == messages[i].parent && k != j ::
              ix.made[k] == []
  {
    forall k | 0 <= k < |messages| && messages[k].Raw? && messages[k].id == messages[i].parent && k != j
      ensures ix.made[k] == []
    {
      assert !Bearer(messages, ix, k, messages[i].parent);
    }
  }

  lemma NameIsDeclared(maps: Maps, messages: seq<Raw>, ix: Index, names: seq<string>, j: nat, id: string)
    requires |messages| == |ix.made| && Given(maps, messages, ix) && j < |messages| && id in Ids(ix.made[j])
    requires Declared(names) && Usable(names, Made(ix, |messages|))
    ensures id in ix.names && ix.names[id] != ""
  {
    hide Given;
    IndexKnownHere(maps, messages, ix);
    MadeHas(ix, |messages|, j, id);
    var calls := Made(ix, |messages|);
    var k :| 0 <= k < |calls| && Ids(calls)[k] == id;
    assert calls[k].name in names;
  }

  lemma IndexKnownHere(maps: Maps, messages: seq<Raw>, ix: Index)
    requires |messages| == |ix.made| && Given(maps, messages, ix)
    ensures Distinct(Ids(Made(ix, |messages|))) ==> KnownAs(ix.names, Made(ix, |messages|))
  {
    IndexKnown(maps, messages, |messages|);
  }

  // While results are fewer than calls, each result gets an unanswered earlier call.
  lemma LinkIsOpen(maps: Maps, messages: seq<Raw>, ix: Index, n: nat, scan: Scan, names: seq<string>)
    requires |messages| == |ix.made| && Given(maps, messages, ix) && n < |messages| && IsToolMessage(messages[n])
    requires Declared(names) && Usable(names, Made(ix, |messages|)) && NoLoneForwardParent(messages, ix, n + 1)
    requires Usable(names, Made(ix, n + 1)) && Tracked(ix, n, scan.consumed, scan.unmatched)
    requires |scan.consumed| < |Made(ix, n)| && scan == Run(maps, ix, messages, n)
    ensures var link := Link(maps, ix, messages[n], n, scan.unmatched + PendingOf(ix.made[n], n), scan.consumed);
            link != "" && link !in scan.consumed && link in Ids(Made(ix, n))
  {
    hide Usable, Declared, ParentLink, LatestLink, NoLoneForwardParent, Tracked, Given, Link, Run;
    NamelessLink(maps, messages, ix, n);
    var parent := ParentLink(ix, "", messages[n].parent, scan.consumed);
    if parent != "" {
      ParentIsEarlier(maps, messages, ix, n, scan, names);
    } else {
      LatestIsOpen(ix, n, scan, names);
    }
  }

  // A result is linked as if it had no name.
  lemma NamelessLink(maps: Maps, messages: seq<Raw>, ix: Index, n: nat)
    requires |messages| == |ix.made| && Given(maps, messages, ix) && n < |messages| && IsToolMessage(messages[n])
    ensures var scan := Run(maps, ix, messages, n);
            var unmatched := scan.unmatched + PendingOf(ix.made[n], n);
            var parent := ParentLink(ix, "", messages[n].parent, scan.consumed);
            Link(maps, ix, messages[n], n, unmatched, scan.consumed) ==
            if parent != "" then parent else LatestLink(unmatched, n, "", scan.consumed)
  {
    hide Run, ParentLink, LatestLink;
    assert Harmless(maps, messages, ix, n);
    assert Resolve(maps.aliases, "") == "";
  }

  lemma ParentIsEarlier(maps: Maps, messages: seq<Raw>, ix: Index, n: nat, scan: Scan, names: seq<string>)
    requires |messages| == |ix.made| && Given(maps, messages, ix) && n < |messages| && IsToolMessage(messages[n])
    requires Declared(names) && Usable(names, Made(ix, |messages|)) && NoLoneForwardParent(messages, ix, n + 1)
    requires Tracked(ix, n, scan.consumed, scan.unmatched)
    requires ParentLink(ix, "", messages[n].parent, scan.consumed) != ""
    ensures var link := ParentLink(ix, "", messages[n].parent, scan.consumed);
            link !in scan.consumed && link in Ids(Made(ix, n))
  {
    hide Usable, Declared, ParentLink;
    var raw := messages[n];
    var link := ParentLink(ix, "", raw.parent, scan.consumed);
    ParentLinkIs(ix, "", raw.parent, scan.consumed);
    IndexLists(maps, messages, |messages|, raw.parent, link);
    var j :| 0 <= j < |messages| && messages[j].Raw? && messages[j].id == raw.parent && link in Ids(ix.made[j]);
    if j < n {
      MadeHas(ix, n, j, link);
    } else {
      assert ForwardParent(messages, ix, n, j) && !LoneForwardParent(messages, ix, n, j);
      ForwardParentLink(maps, messages, ix, names, n, j, scan.consumed);
    }
  }

  lemma LatestIsOpen(ix: Index, n: nat, scan: Scan, names: seq<string>)
    requires n < |ix.made| && Usable(names, Made(ix, n + 1)) && Tracked(ix, n, scan.consumed, scan.unmatched)
    requires |scan.consumed| < |Made(ix, n)|
    ensures var link := LatestLink(scan.unmatched + PendingOf(ix.made[n], n), n, "", scan.consumed);
            link != "" && link !in scan.consumed && link in Ids(Made(ix, n))
  {
    hide LatestLink;
    var unmatched := scan.unmatched + PendingOf(ix.made[n], n);
    MadeStep(ix, n);
    UsablePrefix(names, Made(ix, n), Made(ix, n + 1));
    var id := Unanswered(Ids(Made(ix, n)), scan.consumed);
    EarlierPends(ix, n, scan, id, names);
    LatestLinkIs(unmatched, n, scan.consumed, id);
    var link := LatestLink(unmatched, n, "", scan.consumed);
    var p :| p in unmatched && p.id == link && p.index < n;
    assert p in scan.unmatched;
  }

  lemma EarlierPends(ix: Index, n: nat, scan: Scan, id: string, names: seq<string>)
    requires n < |ix.made| && Usable(names, Made(ix, n + 1)) && Tracked(ix, n, scan.consumed, scan.unmatched)
    requires id in Ids(Made(ix, n)) && id !in scan.consumed
    ensures var unmatched := scan.unmatched + PendingOf(ix.made[n], n);
            Pends(unmatched, id, n) && forall p | p in unmatched :: p.id != ""
  {
    var unmatched := scan.unmatched + PendingOf(ix.made[n], n);
    var p :| p in scan.unmatched && p.id == id && p.index < n;
    assert p in unmatched;
    CallsPend(ix, n, scan.consumed, scan.unmatched);
    forall q | q in unmatched
      ensures q.id != ""
    {
      var k :| 0 <= k < |Made(ix, n + 1)| && Ids(Made(ix, n + 1))[k] == q.id;
    }
  }

  lemma UsablePrefix(names: seq<string>, before: seq<Call>, calls: seq<Call>)
    requires Usable(names, calls) && before <= calls
    ensures Usable(names, before)
  {
    assert forall k | 0 <= k < |before| :: Ids(before)[k] == Ids(calls)[k];
  }

  lemma Unanswered(ids: seq<string>, consumed: set<string>) returns (id: string)
    requires Distinct(ids) && |consumed| < |ids|
    ensures id in ids && id !in consumed
  {
    DistinctCount(ids);
    if IdSet(ids) <= consumed {
      Fewer(IdSet(ids), consumed);
    }
    id :| id in IdSet(ids) && id !in consumed;
  }

  // ---------------------------------------------------------------- the output stays paired

  lemma NoResultAdded(out: seq<Message>, m: Message, consumed: set<string>)
    requires Consumed(out, |out|, consumed) && m.role != ToolRole
    ensures Consumed(out + [m], |out| + 1, consumed)
  {
    hide Answers;
    PairsStay(out, m);
  }

  lemma PairsStay(out: seq<Message>, m: Message)
    ensures forall k, i, j | Answers(out, k, i, j) :: Answers(out + [m], k, i, j)
    ensures forall k | 0 <= k < |out| :: IsTool(out + [m], k) == IsTool(out, k) && (out + [m])[k] == out[k]
  {
  }

  lemma ResultAdded(out: seq<Message>, m: Message, consumed: set<string>, i: int, j: int)
    requires Consumed(out, |out|, consumed) && m.role == ToolRole
    requires IsCallAt(out, i, j) && m.link == Some(out[i].calls[j].id) && out[i].calls[j].id !in consumed
    requires m.name.None? || m.name.value == out[i].calls[j].name
    ensures Consumed(out + [m], |out| + 1, consumed + {out[i].calls[j].id})
  {
    hide Answers;
    PairsStay(out, m);
    NewAnswer(out, m, i, j);
    assert IsTool(out + [m], |out|);
  }

  lemma NewAnswer(out: seq<Message>, m: Message, i: int, j: int)
    requires m.role == ToolRole && IsCallAt(out, i, j) && m.link == Some(out[i].calls[j].id)
    requires m.name.None? || m.name.value == out[i].calls[j].name
    ensures Answers(out + [m], |out|, i, j)
  {
  }

  lemma AllPaired(names: seq<string>, out: seq<Message>, consumed: set<string>)
    requires CallsOk(names, out) && Consumed(out, |out|, consumed)
    requires forall id | id in Ids(Flat(out)) :: id in consumed
    ensures Paired(out)
  {
    forall i, j | IsCallAt(out, i, j)
      ensures exists n :: Answers(out, n, i, j)
    {
      FlatPlace(out, i, j);
      assert Ids(Flat(out))[Place(out, i, j)] == out[i].calls[j].id;
      var n := ConsumedIsAnswered(names, out, consumed, i, j);
    }
  }

  lemma ConsumedIsAnswered(names: seq<string>, out: seq<Message>, consumed: set<string>, i: int, j: int)
    returns (n: int)
    requires CallsOk(names, out) && Consumed(out, |out|, consumed)
    requires IsCallAt(out, i, j) && out[i].calls[j].id in consumed
    ensures Answers(out, n, i, j)
  {
    n :| IsTool(out, n) && n < |out| && out[n].link == Some(out[i].calls[j].id);
    var k, l :| Answers(out, n, k, l);
    assert Earlier(i, j, k, l) || Earlier(k, l, i, j) || (i == k && j == l);
  }

  ghost predicate ScanOk(maps: Maps, messages: seq<Raw>, ix: Index, n: nat)
    requires n <= |messages| == |ix.made|
  {
    var scan := Run(maps, ix, messages, n);
    && Tracked(ix, n, scan.consumed, scan.unmatched) && |scan.consumed| == ToolsIn(messages, n)
    && Consumed(scan.out, |scan.out|, scan.consumed)
  }

  lemma {:induction false} BalancedIsLinked(maps: Maps, messages: seq<Raw>, ix: Index, names: seq<string>, n: nat)
    requires |messages| == |ix.made|
    requires Given(maps, messages, ix) && Usable(names, Made(ix, |messages|)) && Balanced(messages, ix)
    requires n <= |messages| && Declared(names) && NoLoneForwardParent(messages, ix, n)
    ensures ScanOk(maps, messages, ix, n)
  {
    hide Given, Balanced, Tracked, Consumed, Usable, Declared, LoneForwardParent;
    if n == 0 {
      EmptyScan(maps, messages, ix);
    } else {
      BalancedIsLinked(maps, messages, ix, names, n - 1);
      StepIsLinked(maps, messages, ix, names, n - 1);
    }
  }

  lemma EmptyScan(maps: Maps, messages: seq<Raw>, ix: Index)
    requires |messages| == |ix.made|
    ensures ScanOk(maps, messages, ix, 0)
  {
  }

  lemma StepIsLinked(maps: Maps, messages: seq<Raw>, ix: Index, names: seq<string>, n: nat)
    requires |messages| == |ix.made|
    requires Given(maps, messages, ix) && Usable(names, Made(ix, |messages|)) && Balanced(messages, ix)
    requires n < |messages| && ScanOk(maps, messages, ix, n)
    requires Declared(names) && NoLoneForwardParent(messages, ix, n + 1)
    ensures ScanOk(maps, messages, ix, n + 1)
  {
    hide Tracked, Consumed, Usable, Declared, NoLoneForwardParent, Plain;
    MadeGrows(ix, n + 1, |messages|);
    UsablePrefix(names, Made(ix, n + 1), Made(ix, |messages|));
    if IsToolMessage(messages[n]) {
      ResultStep(maps, messages, ix, names, n);
    } else {
      OtherStep(maps, messages, ix, names, n);
    }
  }

  lemma {:induction false} MadeGrows(ix: Index, n: nat, m: nat)
    requires n <= m <= |ix.made|
    ensures Made(ix, n) <= Made(ix, m)
    decreases m
  {
    if n < m {
      MadeGrows(ix, n, m - 1);
      MadeStep(ix, m - 1);
    }
  }

  lemma OtherStep(maps: Maps, messages: seq<Raw>, ix: Index, names: seq<string>, n: nat)
    requires |messages| == |ix.made| && Given(maps, messages, ix)
    requires n < |messages| && ScanOk(maps, messages, ix, n) && !IsToolMessage(messages[n])
    requires Usable(names, Made(ix, n + 1))
    ensures ScanOk(maps, messages, ix, n + 1)
  {
    hide Tracked, Consumed, Plain, Link;
    var scan := Run(maps, ix, messages, n);
    CallsPend(ix, n, scan.consumed, scan.unmatched);
    var raw := messages[n];
    if raw.NotAMessage? {
      IndexGrows(maps, messages, n + 1, |messages|);
      assert scan.unmatched + PendingOf(ix.made[n], n) == scan.unmatched;
    } else {
      var calls := ix.made[n];
      var link := Link(maps, ix, raw, n, scan.unmatched + PendingOf(calls, n), scan.consumed);
      NoResultAdded(scan.out, Normalized(maps, ix, raw, calls, link), scan.consumed);
    }
  }

  lemma ResultStep(maps: Maps, messages: seq<Raw>, ix: Index, names: seq<string>, n: nat)
    requires |messages| == |ix.made| && Given(maps, messages, ix)
    requires n < |messages| && ScanOk(maps, messages, ix, n) && IsToolMessage(messages[n])
    requires Usable(names, Made(ix, |messages|)) && Usable(names, Made(ix, n + 1))
    requires Declared(names) && NoLoneForwardParent(messages, ix, n + 1)
    requires ToolsIn(messages, n) < |Made(ix, n)|
    ensures ScanOk(maps, messages, ix, n + 1)
  {
    hide Tracked, Consumed, Link, Usable, Given, Declared, NoLoneForwardParent, Made, Without, PendingOf;
    var scan := Run(maps, ix, messages, n);
    var raw, calls := messages[n], ix.made[n];
    var link := Link(maps, ix, raw, n, scan.unmatched + PendingOf(calls, n), scan.consumed);
    LinkIsOpen(maps, messages, ix, n, scan, names);
    ResultTracked(ix, names, n, scan, link);
    var i, j := LinkedCall(maps, messages, ix, names, n, link);
    ResultAdded(scan.out, Normalized(maps, ix, raw, calls, link), scan.consumed, i, j);
  }

  lemma ResultTracked(ix: Index, names: seq<string>, n: nat, scan: Scan, link: string)
    requires n < |ix.made| && Usable(names, Made(ix, n + 1)) && Tracked(ix, n, scan.consumed, scan.unmatched)
    requires link in Ids(Made(ix, n)) && link !in scan.consumed
    ensures Tracked(ix, n + 1, scan.consumed + {link}, Without(scan.unmatched + PendingOf(ix.made[n], n), link))
  {
    hide Tracked, Usable;
    UsableIsDistinct(names, Made(ix, n + 1));
    CallsPend(ix, n, scan.consumed, scan.unmatched);
    MadeStep(ix, n);
    InPrefix(Made(ix, n), Made(ix, n + 1), link);
    LinkTracked(ix, n + 1, scan.consumed, scan.unmatched + PendingOf(ix.made[n], n), link);
  }

  lemma InPrefix(before: seq<Call>, calls: seq<Call>, id: string)
    requires before <= calls && id in Ids(before)
    ensures id in Ids(calls)
  {
    var k :| 0 <= k < |before| && Ids(before)[k] == id;
    assert Ids(calls)[k] == id;
  }

  lemma UsableIsDistinct(names: seq<string>, calls: seq<Call>)
    requires Usable(names, calls)
    ensures Distinct(Ids(calls))
  {
  }

  // The linked call is in the output already, under the name the index knows.
  lemma LinkedCall(maps: Maps, messages: seq<Raw>, ix: Index, names: seq<string>, n: nat, link: string)
    returns (i: nat, j: nat)
    requires |messages| == |ix.made| && Given(maps, messages, ix) && n <= |messages|
    requires Usable(names, Made(ix, |messages|)) && link in Ids(Made(ix, n))
    ensures var out := Run(maps, ix, messages, n).out;
            IsCallAt(out, i, j) && out[i].calls[j].id == link
            && link in ix.names && ix.names[link] == out[i].calls[j].name
  {
    NoStrayCalls(maps, messages, ix);
    RunShape(maps, ix, messages, n);
    MadeGrows(ix, n, |messages|);
    IndexKnown(maps, messages, |messages|);
    var k :| 0 <= k < |Made(ix, n)| && Ids(Made(ix, n))[k] == link;
    i, j := FlatHas(Run(maps, ix, messages, n).out, k);
    assert Made(ix, |messages|)[k] == Made(ix, n)[k];
  }

  lemma NoStrayCalls(maps: Maps, messages: seq<Raw>, ix: Index)
    requires |messages| == |ix.made| && Given(maps, messages, ix)
    ensures forall i | 0 <= i < |messages| && (Dropped(messages[i], ix.made[i]) || messages[i].NotAMessage?) ::
              ix.made[i] == []
  {
    hide Indexed;
    forall i | 0 <= i < |messages| && messages[i].NotAMessage?
      ensures ix.made[i] == []
    {
      OthersMakeNone(maps, messages, i);
    }
  }

  lemma OthersMakeNone(maps: Maps, messages: seq<Raw>, i: nat)
    requires i < |messages| && messages[i].NotAMessage?
    ensures Indexed(maps, messages, |messages|).made[i] == []
  {
    IndexGrows(maps, messages, i + 1, |messages|);
    assert Indexed(maps, messages, i + 1).made[i] == [];
  }

  // ---------------------------------------------------------------- the composition

  // A plain row without call provenance is accepted after normalization exactly when its
  // calls have distinct ids and declared names, calls and results balance, and no result has
  // a parent at or after it that makes a single call.
  lemma NormalizedRowIsAccepted(names: seq<string>, apps: seq<App>, maps: Maps, messages: seq<Raw>)
    requires Describes(maps, apps, []) && Plain(maps, messages, FullIndex(maps, messages))
    ensures WellStructured(names, Rows(maps, messages)) <==> Acceptable(names, messages, FullIndex(maps, messages))
  {
    hide Plain, WellStructured, Acceptable;
    NoProvenance(maps, apps, messages);
    GivenRowIsAccepted(names, maps, messages, FullIndex(maps, messages));
  }

  // What can be seen of the raw messages and their calls.
  ghost predicate Acceptable(names: seq<string>, messages: seq<Raw>, ix: Index)
    requires |ix.made| == |messages|
  {
    && Declared(names) && Usable(names, Made(ix, |messages|)) && Balanced(messages, ix)
    && NoLoneForwardParent(messages, ix, |messages|)
  }

  lemma GivenRowIsAccepted(names: seq<string>, maps: Maps, messages: seq<Raw>, ix: Index)
    requires |messages| == |ix.made| && Given(maps, messages, ix)
    ensures WellStructured(names, Run(maps, ix, messages, |messages|).out) <==> Acceptable(names, messages, ix)
  {
    hide Given, Plain, Balanced, Declared, Usable, CallsOk, Paired, LoneForwardParent;
    var out := Run(maps, ix, messages, |messages|).out;
    NoStrayCalls(maps, messages, ix);
    RunShape(maps, ix, messages, |messages|);
    CallsOkFlat(names, out);
    if WellStructured(names, out) {
      AcceptedMeansBalanced(names, maps, messages, ix);
      forall i, j | i < |messages|
        ensures !LoneForwardParent(messages, ix, i, j)
      {
        if LoneForwardParent(messages, ix, i, j) {
          LoneForwardParentIsRefused(names, maps, messages, ix, i, j);
        }
      }
    }
    if Acceptable(names, messages, ix) {
      BalancedIsPaired(names, maps, messages, ix);
    }
  }

  // The first result with such a parent is linked to a call that has not been made yet.
  lemma LoneForwardParentIsRefused(names: seq<string>, maps: Maps, messages: seq<Raw>, ix: Index, i: int, j: int)
    requires |messages| == |ix.made| && Given(maps, messages, ix) && LoneForwardParent(messages, ix, i, j)
    requires Usable(names, Made(ix, |messages|)) && Balanced(messages, ix)
    ensures !WellStructured(names, Run(maps, ix, messages, |messages|).out)
    decreases if i < 0 then 0 else i
  {
    hide Given, Balanced, Usable, CallsOk, Paired, Declared;
    if Declared(names) {
      if k, l :| 0 <= k < i && LoneForwardParent(messages, ix, k, l) {
        LoneForwardParentIsRefused(names, maps, messages, ix, k, l);
      } else {
        assert NoLoneForwardParent(messages, ix, i);
        BalancedIsLinked(maps, messages, ix, names, i);
        FirstLoneIsRefused(names, maps, messages, ix, i, j);
      }
    }
  }

  lemma FirstLoneIsRefused(names: seq<string>, maps: Maps, messages: seq<Raw>, ix: Index, i: nat, j: nat)
    requires |messages| == |ix.made| && Given(maps, messages, ix) && LoneForwardParent(messages, ix, i, j)
    requires Declared(names) && Usable(names, Made(ix, |messages|)) && ScanOk(maps, messages, ix, i)
    ensures !WellStructured(names, Run(maps, ix, messages, |messages|).out)
  {
    hide Usable, CallsOk, Declared, Link, Consumed, Given, Tracked, Next, Paired, ParentLink;
    var scan := Run(maps, ix, messages, i);
    TrackedConsumed(ix, i, scan.consumed, scan.unmatched);
    ForwardParentLink(maps, messages, ix, names, i, j, scan.consumed);
    LoneLink(maps, messages, ix, names, i, j, scan);
    NextLinks(maps, ix, messages[i], i, scan);
    LaterIsNew(names, ix, i, j, Ids(ix.made[j])[0]);
    UnmadeLinkIsRefused(maps, messages, ix, i, ix.made[j][0].id);
  }

  // A result that is linked to a call no earlier message makes is not paired.
  lemma UnmadeLinkIsRefused(maps: Maps, messages: seq<Raw>, ix: Index, i: nat, y: string)
    requires |messages| == |ix.made| && Given(maps, messages, ix) && i < |messages|
    requires y !in Ids(Made(ix, i))
    requires var before, after := Run(maps, ix, messages, i).out, Run(maps, ix, messages, i + 1).out;
             |after| == |before| + 1 && after[..|before|] == before
             && after[|before|].role == ToolRole && after[|before|].link == Some(y)
    ensures !Paired(Run(maps, ix, messages, |messages|).out)
  {
    hide Given, Made, Next, Paired, Run;
    var before, after := Run(maps, ix, messages, i).out, Run(maps, ix, messages, i + 1).out;
    var out := Run(maps, ix, messages, |messages|).out;
    NoStrayCalls(maps, messages, ix);
    RunShape(maps, ix, messages, i);
    RunGrows(maps, ix, messages, i + 1, |messages|);
    assert out[..|before|] == before && out[|before|] == after[|before|];
    NotAnswered(out, |before|, y);
  }

  lemma TrackedConsumed(ix: Index, n: nat, consumed: set<string>, unmatched: seq<Pending>)
    requires n <= |ix.made| && Tracked(ix, n, consumed, unmatched)
    ensures forall id | id in consumed :: id in Ids(Made(ix, n))
  {
  }

  lemma NextLinks(maps: Maps, ix: Index, raw: Raw, index: nat, scan: Scan)
    requires index < |ix.made| && IsToolMessage(raw)
    ensures var link := Link(maps, ix, raw, index, scan.unmatched + PendingOf(ix.made[index], index), scan.consumed);
            var out := Next(maps, ix, raw, index, scan).out;
            |out| == |scan.out| + 1 && out[..|scan.out|] == scan.out
            && out[|scan.out|].role == ToolRole && out[|scan.out|].link == NonEmpty(link)
  {
    hide Link;
  }

  lemma LoneLink(maps: Maps, messages: seq<Raw>, ix: Index, names: seq<string>, i: nat, j: nat, scan: Scan)
    requires |messages| == |ix.made| && Given(maps, messages, ix) && LoneForwardParent(messages, ix, i, j)
    requires Usable(names, Made(ix, |messages|)) && scan == Run(maps, ix, messages, i)
    requires ParentLink(ix, "", messages[i].parent, scan.consumed) == ix.made[j][0].id
    ensures Link(maps, ix, messages[i], i, scan.unmatched + PendingOf(ix.made[i], i), scan.consumed) == ix.made[j][0].id
    ensures ix.made[j][0].id != ""
  {
    hide ParentLink, LatestLink, Given, Link, Run;
    NamelessLink(maps, messages, ix, i);
    MadeGrows(ix, j + 1, |messages|);
    MadeStep(ix, j);
    assert Made(ix, |messages|)[|Made(ix, j)|] == ix.made[j][0];
  }

  lemma NotAnswered(out: seq<Message>, q: nat, y: string)
    requires IsTool(out, q) && out[q].link == Some(y) && y !in Ids(Flat(out[..q]))
    ensures !Paired(out)
  {
    forall a, b
      ensures !Answers(out, q, a, b)
    {
      if Answers(out, q, a, b) {
        LinkIsMade(out, q, a, b, q);
      }
    }
  }

  // With distinct message ids a parent is never ambiguous.
  lemma DistinctIdsArePlain(maps: Maps, messages: seq<Raw>, ix: Index)
    requires |ix.made| == |messages|
    requires forall i | 0 <= i < |messages| && IsToolMessage(messages[i]) ::
               messages[i].link == "" && Harmless(maps, messages, ix, i)
    requires forall i | 0 <= i < |messages| :: Dropped(messages[i], ix.made[i]) ==> ix.made[i] == []
    requires forall i, j | 0 <= i < j < |messages| && messages[i].Raw? && messages[j].Raw? && messages[i].id != "" ::
               messages[i].id != messages[j].id
    ensures Plain(maps, messages, ix)
  {
    hide Harmless;
  }

  // A missing name is harmless, and where all calls have one name, so is every name that
  // resolves to it.
  lemma OneNameIsHarmless(maps: Maps, messages: seq<Raw>, ix: Index, name: string, i: nat)
    requires |messages| == |ix.made| && ix == Indexed(maps, messages, |messages|) && maps.names == map[]
    requires "" !in maps.aliases && Distinct(Ids(Made(ix, |messages|)))
    requires forall k | 0 <= k < |Made(ix, |messages|)| :: Made(ix, |messages|)[k].name == name
    requires i < |messages| && IsToolMessage(messages[i])
    requires messages[i].name == "" || Resolve(maps.aliases, messages[i].name) == name != ""
    ensures Harmless(maps, messages, ix, i)
  {
    hide Run, ParentLink, LatestLink, Made, Ids, KnownAs, Distinct;
    if messages[i].name == "" {
      assert messages[i].(name := "") == messages[i];
    } else {
      var scan := Run(maps, ix, messages, i);
      var unmatched := scan.unmatched + PendingOf(ix.made[i], i);
      IndexKnown(maps, messages, |messages|);
      ParentIsNameless(maps, messages, ix, name, messages[i].parent, scan.consumed);
      PendingIsNamed(maps, ix, messages, i, name);
      MadeIsNamed(ix, i, name);
      LatestIsNameless(unmatched, i, name, scan.consumed);
    }
  }

  lemma ParentIsNameless(maps: Maps, messages: seq<Raw>, ix: Index, name: string, parent: string, consumed: set<string>)
    requires |messages| == |ix.made| && ix == Indexed(maps, messages, |messages|) && name != ""
    requires KnownAs(ix.names, Made(ix, |messages|))
    requires forall k | 0 <= k < |Made(ix, |messages|)| :: Made(ix, |messages|)[k].name == name
    ensures ParentLink(ix, name, parent, consumed) == ParentLink(ix, "", parent, consumed)
  {
    hide Indexed, Made;
    var candidates := Open(Under(ix.byMessage, parent), consumed);
    forall id | id in candidates
      ensures id in ix.names && ix.names[id] == name
    {
      OpenAreListed(Under(ix.byMessage, parent), consumed, id);
      IndexLists(maps, messages, |messages|, parent, id);
      var j :| 0 <= j < |messages| && id in Ids(ix.made[j]);
      MadeHas(ix, |messages|, j, id);
      var k :| 0 <= k < |Made(ix, |messages|)| && Ids(Made(ix, |messages|))[k] == id;
    }
    AllNamed(candidates, ix.names, name);
    NoneIsUnnamed(candidates, ix.names);
  }

  lemma {:induction false} OpenAreListed(ids: seq<string>, consumed: set<string>, id: string)
    requires id in Open(ids, consumed)
    ensures id in ids
  {
    if ids[|ids| - 1] != id {
      OpenAreListed(ids[..|ids| - 1], consumed, id);
    }
  }

  lemma {:induction false} AllNamed(ids: seq<string>, names: CallNames, name: string)
    requires forall id | id in ids :: id in names && names[id] == name
    ensures Named(ids, names, name) == ids
  {
    if ids != [] {
      var n := |ids| - 1;
      AllNamed(ids[..n], names, name);
      assert ids == ids[..n] + [ids[n]];
    }
  }

  lemma {:induction false} LatestIsNameless(unmatched: seq<Pending>, index: nat, name: string, consumed: set<string>)
    requires forall p | p in unmatched :: p.name == name
    ensures LatestLink(unmatched, index, name, consumed) == LatestLink(unmatched, index, "", consumed)
  {
    if unmatched != [] {
      LatestIsNameless(unmatched[..|unmatched| - 1], index, name, consumed);
    }
  }

  lemma MadeIsNamed(ix: Index, n: nat, name: string)
    requires n < |ix.made|
    requires forall k | 0 <= k < |Made(ix, |ix.made|)| :: Made(ix, |ix.made|)[k].name == name
    ensures forall p | p in PendingOf(ix.made[n], n) :: p.name == name
  {
    MadeGrows(ix, n + 1, |ix.made|);
    MadeStep(ix, n);
    forall k | 0 <= k < |ix.made[n]|
      ensures ix.made[n][k].name == name
    {
      assert Made(ix, |ix.made|)[|Made(ix, n)| + k] == ix.made[n][k];
    }
  }

  lemma {:induction false} PendingIsNamed(maps: Maps, ix: Index, messages: seq<Raw>, n: nat, name: string)
    requires n <= |messages| == |ix.made|
    requires forall k | 0 <= k < |Made(ix, |ix.made|)| :: Made(ix, |ix.made|)[k].name == name
    ensures forall p | p in Run(maps, ix, messages, n).unmatched :: p.name == name
  {
    hide Made, Link, Normalized;
    if n > 0 {
      PendingIsNamed(maps, ix, messages, n - 1, name);
      MadeIsNamed(ix, n - 1, name);
      var unmatched := Run(maps, ix, messages, n - 1).unmatched + PendingOf(ix.made[n - 1], n - 1);
      forall link: string, p | p in Without(unmatched, link)
        ensures p.name == name
      {
        WithoutAre(unmatched, link, p);
      }
    }
  }

  lemma NoProvenance(maps: Maps, apps: seq<App>, messages: seq<Raw>)
    requires Describes(maps, apps, []) && Plain(maps, messages, FullIndex(maps, messages))
    ensures Given(maps, messages, FullIndex(maps, messages))
  {
    assert maps.names == map[] && maps.results == map[] by {
      assert forall c | c in maps.names :: false;
      assert forall m | m in maps.results :: false;
    }
    NoMembers(maps.members);
    if "" in maps.aliases {
      var s :| s in maps.aliases[""];
      assert Lists(maps.aliases, "", s);
    }
    var ix := Indexed(maps, messages, |messages|);
    assert WithMembers(ix.byMessage, maps.members) == ix.byMessage;
  }

  lemma NoMembers(members: map<string, seq<string>>)
    requires MembersAre(members, [], 0)
    ensures members == map[]
  {
    assert forall m, c :: !HasMember([], 0, m, c);
    assert forall m :: m !in members;
  }

  lemma AcceptedMeansBalanced(names: seq<string>, maps: Maps, messages: seq<Raw>, ix: Index)
    requires |messages| == |ix.made| && Given(maps, messages, ix)
    requires WellStructured(names, Run(maps, ix, messages, |messages|).out)
    ensures Balanced(messages, ix)
  {
    hide Given, WellStructured, Link, Made, Next, Flat, Tools, Dropped;
    var out := Run(maps, ix, messages, |messages|).out;
    NoStrayCalls(maps, messages, ix);
    RunShape(maps, ix, messages, |messages|);
    AcceptedIsBalanced(names, out, 0);
    forall i | 0 <= i < |messages| && IsToolMessage(messages[i])
      ensures ToolsIn(messages, i) < |Made(ix, i)|
    {
      var before := Run(maps, ix, messages, i).out;
      RunShape(maps, ix, messages, i);
      NextShape(maps, ix, messages[i], i, Run(maps, ix, messages, i));
      RunGrows(maps, ix, messages, i, i + 1);
      RunGrows(maps, ix, messages, i + 1, |messages|);
      assert out[..|before|] == before && IsTool(out, |before|);
      AcceptedIsBalanced(names, out, |before|);
    }
  }

  lemma BalancedIsPaired(names: seq<string>, maps: Maps, messages: seq<Raw>, ix: Index)
    requires |messages| == |ix.made| && Given(maps, messages, ix)
    requires Acceptable(names, messages, ix)
    ensures Paired(Run(maps, ix, messages, |messages|).out)
  {
    var scan := Run(maps, ix, messages, |messages|);
    BalancedIsLinked(maps, messages, ix, names, |messages|);
    NoStrayCalls(maps, messages, ix);
    RunShape(maps, ix, messages, |messages|);
    CallsOkFlat(names, scan.out);
    var ids := Ids(Made(ix, |messages|));
    DistinctCount(ids);
    assert scan.consumed <= IdSet(ids);
    Fewer(scan.consumed, IdSet(ids));
    AllPaired(names, scan.out, scan.consumed);
  }

  // The names the first t tools of an App offer, in order.
  function Offered(tools: seq<Tool>, t: nat): seq<string>
    requires t <= |tools|
  {
    if t == 0 then []
    else Offered(tools, t - 1) + if tools[t - 1].Tool? && tools[t - 1].name != "" then [tools[t - 1].stable] else []
  }

  // The names the first a Apps offer, in order and with repetitions.
  function ManifestNames(apps: seq<App>, a: nat): seq<string>
    requires a <= |apps|
  {
    if a == 0 then []
    else ManifestNames(apps, a - 1) + if apps[a - 1].App? then Offered(apps[a - 1].tools, |apps[a - 1].tools|) else []
  }

  method ToolNames(apps: seq<App>) returns (names: seq<string>)
    ensures names == ManifestNames(apps, |apps|)
    ensures forall s :: s in names <==> ManifestTool(apps, |apps|, 0, s)
  {
    names := [];
    var a := 0;
    while a < |apps|
      invariant 0 <= a <= |apps|
      invariant names == ManifestNames(apps, a)
    {
      var t := 0;
      var tools := if apps[a].App? then apps[a].tools else [];
      while t < |tools|
        invariant 0 <= t <= |tools|
        invariant names == ManifestNames(apps, a) + Offered(tools, t)
      {
        if tools[t].Tool? && tools[t].name != "" {
          names := names + [tools[t].stable];
        }
        t := t + 1;
      }
      a := a + 1;
    }
    NamesAreTools(apps, |apps|);
  }

  lemma {:induction false} NamesAreTools(apps: seq<App>, a: nat)
    requires a <= |apps|
    ensures forall s :: s in ManifestNames(apps, a) <==> ManifestTool(apps, a, 0, s)
  {
    hide ManifestTool;
    if a == 0 {
      NoToolYet(apps);
    } else {
      NamesAreTools(apps, a - 1);
      LastTool(apps, a - 1);
      if apps[a - 1].App? {
        OfferedAreTools(apps, a - 1, |apps[a - 1].tools|);
      }
    }
  }

  lemma NoToolYet(apps: seq<App>)
    ensures forall s :: !ManifestTool(apps, 0, 0, s)
  {
  }

  lemma {:induction false} OfferedAreTools(apps: seq<App>, a: nat, t: nat)
    requires a < |apps| && apps[a].App? && t <= |apps[a].tools|
    ensures forall s :: ManifestTool(apps, a, t, s) <==> ManifestTool(apps, a, 0, s) || s in Offered(apps[a].tools, t)
  {
    hide ManifestTool;
    if t > 0 {
      OfferedAreTools(apps, a, t - 1);
      OneMoreTool(apps, a, t - 1);
    }
  }

  ghost predicate ManifestTool(apps: seq<App>, a: int, t: int, stable: string) {
    exists alias :: FromTools(apps, a, t, alias, stable)
  }

  predicate Offers(apps: seq<App>, a: int, t: int, stable: string)
    requires 0 <= a < |apps| && apps[a].App? && 0 <= t < |apps[a].tools|
  {
    apps[a].tools[t].Tool? && apps[a].tools[t].name != "" && apps[a].tools[t].stable == stable
  }

  lemma OneMoreTool(apps: seq<App>, a: nat, t: nat)
    requires a < |apps| && apps[a].App? && t < |apps[a].tools|
    ensures forall s :: ManifestTool(apps, a, t + 1, s) <==> ManifestTool(apps, a, t, s) || Offers(apps, a, t, s)
  {
    forall s, alias
      ensures FromTools(apps, a, t + 1, alias, s) <==> FromTools(apps, a, t, alias, s) || ToolAt(apps, a, t, alias, s)
    {
      if FromTools(apps, a, t, alias, s) {
        var i, j :| ToolAt(apps, i, j, alias, s) && Before(i, j, a, t);
        assert Before(i, j, a, t + 1);
      } else if ToolAt(apps, a, t, alias, s) {
        assert Before(a, t, a, t + 1);
      }
    }
    forall s | ManifestTool(apps, a, t, s) || Offers(apps, a, t, s)
      ensures ManifestTool(apps, a, t + 1, s)
    {
      if ManifestTool(apps, a, t, s) {
        var alias :| FromTools(apps, a, t, alias, s);
        assert FromTools(apps, a, t + 1, alias, s);
      } else {
        assert ToolAt(apps, a, t, apps[a].tools[t].name, s);
        assert FromTools(apps, a, t + 1, apps[a].tools[t].name, s);
      }
    }
    forall s | ManifestTool(apps, a, t + 1, s) && !Offers(apps, a, t, s)
      ensures ManifestTool(apps, a, t, s)
    {
      var alias :| FromTools(apps, a, t + 1, alias, s);
      assert !ToolAt(apps, a, t, alias, s);
      assert FromTools(apps, a, t, alias, s);
    }
  }

  lemma LastTool(apps: seq<App>, a: nat)
    requires a < |apps|
    ensures var end := if apps[a].App? then |apps[a].tools| else 0;
            forall s :: ManifestTool(apps, a + 1, 0, s) <==> ManifestTool(apps, a, end, s)
  {
    var end := if apps[a].App? then |apps[a].tools| else 0;
    forall alias, s: string
      ensures FromTools(apps, a + 1, 0, alias, s) <==> FromTools(apps, a, end, alias, s)
    {
      AppIsDone(apps, a, alias, s);
    }
    forall s | ManifestTool(apps, a, end, s)
      ensures ManifestTool(apps, a + 1, 0, s)
    {
      var alias :| FromTools(apps, a, end, alias, s);
      assert FromTools(apps, a + 1, 0, alias, s);
    }
    forall s | ManifestTool(apps, a + 1, 0, s)
      ensures ManifestTool(apps, a, end, s)
    {
      var alias :| FromTools(apps, a + 1, 0, alias, s);
      assert FromTools(apps, a, end, alias, s);
    }
  }

  // A call under the name of exactly one manifest tool is declared.
  lemma ManifestNameIsDeclared(apps: seq<App>, maps: Maps, alias: string, stable: string)
    requires Describes(maps, apps, []) && FromTools(apps, |apps|, 0, alias, stable)
    requires forall s | FromTools(apps, |apps|, 0, alias, s) :: s == stable
    ensures ManifestTool(apps, |apps|, 0, Resolve(maps.aliases, alias))
  {
    assert forall s :: Bears(apps, [], alias, s) ==> FromTools(apps, |apps|, 0, alias, s);
    ResolvesUniquely(maps, apps, [], alias, stable);
  }

  method ExportRow(messages: seq<Raw>, used: seq<Used>, apps: seq<App>)
    returns (ok: bool, names: seq<string>, row: seq<Message>, maps: Maps)
    ensures Describes(maps, apps, used) && row == Rows(maps, messages)
    ensures names == ManifestNames(apps, |apps|)
    ensures ok <==> WellStructured(names, row)
    ensures used == [] && Plain(maps, messages, FullIndex(maps, messages)) ==>
              (ok <==> Acceptable(names, messages, FullIndex(maps, messages)))
  {
    hide WellStructured, Acceptable, Plain, Rows;
    row, maps := NormalizeMessages(messages, used, apps);
    names := ToolNames(apps);
    ok := Validate(names, row);
    if used == [] && Plain(maps, messages, FullIndex(maps, messages)) {
      NormalizedRowIsAccepted(names, apps, maps, messages);
    }
  }

  // ---------------------------------------------------------------- a parent that comes later

  function CallMessage(id: string, call: string): Raw {
    Raw(id, "assistant", "", "", "", [RawCall(call, "t", "")], "", "", "", "", false, false, None)
  }

  function ResultMessage(parent: string): Raw {
    Raw("", "tool", "", "", parent, [], "", "", "", "", false, false, None)
  }

  // Balanced and usable, but the first result names a later message as its parent: it gets
  // that message's call, and the row is refused.
  lemma ForwardParentIsRefused(maps: Maps, messages: seq<Raw>)
    requires maps == Maps(map[], map[], map[], map[])
    requires messages == [CallMessage("a", "x"), ResultMessage("b"), CallMessage("b", "y"), ResultMessage("")]
    ensures var ix := FullIndex(maps, messages);
            && Usable(["t"], Made(ix, 4)) && Balanced(messages, ix)
            && !WellStructured(["t"], Rows(maps, messages))
  {
    hide WellStructured, Usable, Balanced, Indexed, LoneForwardParent;
    var ix := FullIndex(maps, messages);
    ForwardIndex(maps, messages);
    ForwardIsUsable(ix);
    ForwardIsBalanced(messages, ix);
    ForwardIsLone(messages, ix);
    assert WithMembers(Indexed(maps, messages, 4).byMessage, map[]) == Indexed(maps, messages, 4).byMessage;
    GivenRowIsAccepted(["t"], maps, messages, ix);
  }

  lemma ForwardIsLone(messages: seq<Raw>, ix: Index)
    requires messages == [CallMessage("a", "x"), ResultMessage("b"), CallMessage("b", "y"), ResultMessage("")]
    requires ix.made == [[Call("x", "t", "")], [], [Call("y", "t", "")], []]
    ensures LoneForwardParent(messages, ix, 1, 2)
  {
  }

  lemma ForwardIsUsable(ix: Index)
    requires ix.made == [[Call("x", "t", "")], [], [Call("y", "t", "")], []]
    ensures Made(ix, 1) == Made(ix, 2) == [Call("x", "t", "")]
    ensures Made(ix, 3) == Made(ix, 4) == [Call("x", "t", ""), Call("y", "t", "")]
    ensures Usable(["t"], Made(ix, 4))
  {
    MadeStep(ix, 0);
    MadeStep(ix, 1);
    MadeStep(ix, 2);
    MadeStep(ix, 3);
  }

  lemma ForwardIsBalanced(messages: seq<Raw>, ix: Index)
    requires messages == [CallMessage("a", "x"), ResultMessage("b"), CallMessage("b", "y"), ResultMessage("")]
    requires |ix.made| == 4 && |Made(ix, 1)| == 1 && |Made(ix, 3)| == |Made(ix, 4)| == 2
    ensures Balanced(messages, ix)
  {
    hide Made;
    assert forall i | 0 <= i < 4 :: IsToolMessage(messages[i]) <==> i == 1 || i == 3;
    assert ToolsIn(messages, 1) == 0;
    assert ToolsIn(messages, 3) == 1;
    assert ToolsIn(messages, 4) == 2;
  }

  lemma ForwardIndex(maps: Maps, messages: seq<Raw>)
    requires maps == Maps(map[], map[], map[], map[])
    requires messages == [CallMessage("a", "x"), ResultMessage("b"), CallMessage("b", "y"), ResultMessage("")]
    ensures Indexed(maps, messages, 4).made == [[Call("x", "t", "")], [], [Call("y", "t", "")], []]
  {
    CallOfMessage(map[], "a", "x", 0);
    CallOfMessage(map["x" := "t"], "b", "y", 2);
    assert Indexed(maps, messages, 0).names == map[];
    assert Indexed(maps, messages, 1).names == map["x" := "t"];
    assert Indexed(maps, messages, 2).names == map["x" := "t"];
    assert Indexed(maps, messages, 3).made == [[Call("x", "t", "")], [], [Call("y", "t", "")]];
  }

  lemma CallOfMessage(names: CallNames, id: string, call: string, index: nat)
    requires call != "" && call !in names
    ensures CallsOf(names, map[], index, CallMessage(id, call)) == ([Call(call, "t", "")], names[call := "t"])
  {
    var raw := CallMessage(id, call);
    assert CallsUpTo(names, map[], index, raw, 0) == ([], names);
    assert [] + [Call(call, "t", "")] == [Call(call, "t", "")];
    assert CallsUpTo(names, map[], index, raw, 1) == ([Call(call, "t", "")], names[call := "t"]);
  }
}
