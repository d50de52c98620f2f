// What the index of a conversation holds: the calls each message shows, the names they go by,
// and the calls listed under each message id.
module Indexing {
  import opened Basics
  import opened Trajectory
  import opened Identity
  import opened Normalize
  import Text

  // ---------------------------------------------------------------- the calls of a message

  predicate IsEntry(raw: Raw, e: int) {
    raw.Raw? && 0 <= e < |raw.calls| && raw.calls[e].RawCall?
  }

  function EntryId(raw: Raw, index: nat, e: nat): string
    requires IsEntry(raw, e)
  {
    if raw.calls[e].id != "" then raw.calls[e].id
    else (if raw.id != "" then raw.id else "message:" + Text.Digits(index)) + ":" + Text.Digits(e)
  }

  // An assistant's code for one recipient is a call, unless the message lists calls.
  ghost predicate IsCode(raw: Raw) {
    && raw.Raw? && raw.role !in {"user", "tool", "system"} && raw.contentType == "code"
    && raw.recipient !in {"", "all"} && forall e :: !IsEntry(raw, e)
  }

  predicate Increasing(at: seq<nat>) {
    forall p, q | 0 <= p < q < |at| :: at[p] < at[q]
  }

  // Each entry before k that is a call makes one call, in order.
  ghost predicate Lists(raw: Raw, index: nat, k: nat, calls: seq<Call>, at: seq<nat>) {
    && |at| == |calls| && Increasing(at)
    && (forall p | 0 <= p < |at| ::
          && at[p] < k && IsEntry(raw, at[p])
          && calls[p].id == EntryId(raw, index, at[p]) && calls[p].arguments == raw.calls[at[p]].arguments)
    && (forall e: nat | e < k && IsEntry(raw, e) :: e in at)
  }

  // An entry before k names the id so.
  ghost predicate EntryNames(raw: Raw, aliases: map<string, set<string>>, index: nat, k: nat, id: string,
                             name: string) {
    exists e: nat :: e < k && IsEntry(raw, e) && EntryId(raw, index, e) == id
                     && name == Resolve(aliases, raw.calls[e].name)
  }

  predicate Keeps(before: CallNames, names: CallNames) {
    forall id | id in before :: id in names && names[id] == before[id]
  }

  // The names after the first k entries: known ones stay, a new id is named by one of them.
  ghost predicate Names(raw: Raw, aliases: map<string, set<string>>, index: nat, k: nat, before: CallNames,
                        names: CallNames) {
    && Keeps(before, names)
    && (forall id | id in names && id !in before :: EntryNames(raw, aliases, index, k, id, names[id]))
    && (forall e: nat | e < k && IsEntry(raw, e) :: EntryId(raw, index, e) in names)
  }

  // The call goes by the name of its id, if that has one.
  predicate NamedBy(call: Call, names: CallNames, own: string) {
    call.id in names && call.name == if names[call.id] != "" then names[call.id] else own
  }

  ghost predicate CallsNamed(raw: Raw, aliases: map<string, set<string>>, calls: seq<Call>, at: seq<nat>,
                             names: CallNames) {
    && |at| == |calls|
    && forall p | 0 <= p < |at| ::
         IsEntry(raw, at[p]) && NamedBy(calls[p], names, Resolve(aliases, raw.calls[at[p]].name))
  }

  lemma {:induction false} EntriesMakeCalls(before: CallNames, aliases: map<string, set<string>>, index: nat, raw: Raw,
                                          k: nat)
    returns (at: seq<nat>)
    requires raw.Raw? && k <= |raw.calls|
    ensures var (calls, names) := CallsUpTo(before, aliases, index, raw, k);
            && Lists(raw, index, k, calls, at) && Names(raw, aliases, index, k, before, names)
            && CallsNamed(raw, aliases, calls, at, names)
  {
    hide Resolve, Lists, Names, CallsNamed;
    if k == 0 {
      at := [];
      NoEntry(raw, aliases, index, before);
    } else {
      at := EntriesMakeCalls(before, aliases, index, raw, k - 1);
      var (calls, names) := CallsUpTo(before, aliases, index, raw, k - 1);
      var (calls', names') := CallsUpTo(before, aliases, index, raw, k);
      if IsEntry(raw, k - 1) {
        var call := calls'[|calls|];
        assert calls' == calls + [call];
        EntryListed(raw, index, k - 1, calls, at, call);
        EntryNamed(raw, aliases, index, k - 1, before, names, call);
        CallNamed(raw, aliases, calls, at, names, call, k - 1);
        at := at + [k - 1];
      } else {
        OtherEntry(raw, aliases, index, k - 1, before, calls, at, names);
      }
    }
  }

  lemma NoEntry(raw: Raw, aliases: map<string, set<string>>, index: nat, before: CallNames)
    ensures Lists(raw, index, 0, [], []) && Names(raw, aliases, index, 0, before, before)
    ensures CallsNamed(raw, aliases, [], [], before)
  {
  }

  lemma OtherEntry(raw: Raw, aliases: map<string, set<string>>, index: nat, k: nat, before: CallNames,
                   calls: seq<Call>, at: seq<nat>, names: CallNames)
    requires !IsEntry(raw, k) && Lists(raw, index, k, calls, at) && Names(raw, aliases, index, k, before, names)
    ensures Lists(raw, index, k + 1, calls, at) && Names(raw, aliases, index, k + 1, before, names)
  {
    hide Resolve, EntryId;
    forall id, name | EntryNames(raw, aliases, index, k, id, name)
      ensures EntryNames(raw, aliases, index, k + 1, id, name)
    {
    }
  }

  lemma EntryListed(raw: Raw, index: nat, k: nat, calls: seq<Call>, at: seq<nat>, call: Call)
    requires IsEntry(raw, k) && call.id == EntryId(raw, index, k) && call.arguments == raw.calls[k].arguments
    requires Lists(raw, index, k, calls, at)
    ensures Lists(raw, index, k + 1, calls + [call], at + [k])
  {
    hide EntryId;
    var at' := at + [k];
    forall e: nat | e < k + 1 && IsEntry(raw, e)
      ensures e in at'
    {
      assert at'[|at|] == k;
      assert at' == at + [k];
    }
  }

  lemma EntryNamed(raw: Raw, aliases: map<string, set<string>>, index: nat, k: nat, before: CallNames,
                   names: CallNames, call: Call)
    requires IsEntry(raw, k) && call.id == EntryId(raw, index, k)
    requires call.name == Naming(names, aliases, call.id, raw.calls[k].name)
    requires Names(raw, aliases, index, k, before, names)
    ensures Names(raw, aliases, index, k + 1, before, Learned(names, call.id, call.name))
  {
    hide Resolve, EntryId;
    var names' := Learned(names, call.id, call.name);
    forall id | id in names' && id !in before
      ensures EntryNames(raw, aliases, index, k + 1, id, names'[id])
    {
      if id in names {
        assert EntryNames(raw, aliases, index, k, id, names[id]);
      }
    }
  }

  lemma CallNamed(raw: Raw, aliases: map<string, set<string>>, calls: seq<Call>, at: seq<nat>, names: CallNames,
                  call: Call, k: nat)
    requires IsEntry(raw, k) && call.name == Naming(names, aliases, call.id, raw.calls[k].name)
    requires CallsNamed(raw, aliases, calls, at, names)
    ensures CallsNamed(raw, aliases, calls + [call], at + [k], Learned(names, call.id, call.name))
  {
    hide Resolve;
  }

  // What a message shows: a call for each entry, or one for its code, or none.
  ghost predicate Shows(raw: Raw, index: nat, calls: seq<Call>) {
    if exists e :: IsEntry(raw, e) then exists at: seq<nat> :: Lists(raw, index, |raw.calls|, calls, at)
    else if IsCode(raw) then
      && |calls| == 1 && calls[0].arguments == raw.text
      && calls[0].id == (if raw.id != "" then raw.id else "message:" + Text.Digits(index))
    else calls == []
  }

  // The message shows a call with this id under this alias.
  ghost predicate Introduces(raw: Raw, index: nat, id: string, alias: string) {
    || (exists e: nat :: IsEntry(raw, e) && EntryId(raw, index, e) == id && raw.calls[e].name == alias)
    || (IsCode(raw) && alias == raw.recipient
        && id == (if raw.id != "" then raw.id else "message:" + Text.Digits(index)))
  }

  ghost predicate Introduced(raw: Raw, aliases: map<string, set<string>>, index: nat, id: string, name: string) {
    exists alias :: Introduces(raw, index, id, alias) && name == Resolve(aliases, alias)
  }

  // The call goes by the name of its id, if that has one, and by its own alias otherwise.
  ghost predicate Called(raw: Raw, aliases: map<string, set<string>>, index: nat, call: Call, names: CallNames) {
    exists alias :: Introduces(raw, index, call.id, alias) && NamedBy(call, names, Resolve(aliases, alias))
  }

  // How one message extends the names, and how its calls are named.
  ghost predicate Extends(raw: Raw, aliases: map<string, set<string>>, index: nat, before: CallNames,
                          calls: seq<Call>, names: CallNames) {
    && Keeps(before, names)
    && (forall id | id in names && id !in before :: Introduced(raw, aliases, index, id, names[id]))
    && (forall id, alias | Introduces(raw, index, id, alias) :: id in names)
    && forall p | 0 <= p < |calls| :: Called(raw, aliases, index, calls[p], names)
  }

  lemma MessageShows(before: CallNames, aliases: map<string, set<string>>, index: nat, raw: Raw)
    ensures var (calls, names) := CallsOf(before, aliases, index, raw);
            Shows(raw, index, calls) && Extends(raw, aliases, index, before, calls, names)
  {
    hide Resolve, Names, CallsNamed, Extends;
    var (calls, names) := CallsOf(before, aliases, index, raw);
    if raw.NotAMessage? {
      NothingShown(raw, aliases, index, before);
    } else {
      var at := EntriesMakeCalls(before, aliases, index, raw, |raw.calls|);
      var (made, known) := CallsUpTo(before, aliases, index, raw, |raw.calls|);
      if made != [] {
        assert IsEntry(raw, at[0]);
        ListedAreIntroduced(raw, aliases, index, before, made, at, known);
      } else {
        assert forall e :: !IsEntry(raw, e);
        NothingNamed(raw, aliases, index, before, known);
        if IsCodeCall(raw) {
          assert IsCode(raw);
          CodeIsIntroduced(raw, aliases, index, before, calls[0]);
        } else {
          NothingShown(raw, aliases, index, before);
        }
      }
    }
  }

  lemma NothingShown(raw: Raw, aliases: map<string, set<string>>, index: nat, names: CallNames)
    requires (forall e :: !IsEntry(raw, e)) && !IsCode(raw)
    ensures Extends(raw, aliases, index, names, [], names)
  {
  }

  lemma NothingNamed(raw: Raw, aliases: map<string, set<string>>, index: nat, before: CallNames, names: CallNames)
    requires (forall e :: !IsEntry(raw, e)) && raw.Raw? && Names(raw, aliases, index, |raw.calls|, before, names)
    ensures names == before
  {
    hide Resolve, EntryId;
  }

  lemma CodeIsIntroduced(raw: Raw, aliases: map<string, set<string>>, index: nat, before: CallNames, call: Call)
    requires IsCode(raw) && call.id == (if raw.id != "" then raw.id else "message:" + Text.Digits(index))
    requires call.name == Naming(before, aliases, call.id, raw.recipient)
    ensures Extends(raw, aliases, index, before, [call], Learned(before, call.id, call.name))
  {
    hide Resolve;
    assert Introduces(raw, index, call.id, raw.recipient);
  }

  lemma ListedAreIntroduced(raw: Raw, aliases: map<string, set<string>>, index: nat, before: CallNames,
                            calls: seq<Call>, at: seq<nat>, names: CallNames)
    requires raw.Raw? && Lists(raw, index, |raw.calls|, calls, at) && |at| > 0
    requires Names(raw, aliases, index, |raw.calls|, before, names) && CallsNamed(raw, aliases, calls, at, names)
    ensures Extends(raw, aliases, index, before, calls, names)
  {
    hide Resolve, Introduces, Lists, Names, CallsNamed, Introduced, Called;
    ListedIsNotCode(raw, index, calls, at);
    forall p | 0 <= p < |calls|
      ensures Called(raw, aliases, index, calls[p], names)
    {
      ListedIsCalled(raw, aliases, index, calls, at, names, p);
    }
    NamesAreIntroduced(raw, aliases, index, before, names);
  }

  lemma ListedIsNotCode(raw: Raw, index: nat, calls: seq<Call>, at: seq<nat>)
    requires raw.Raw? && Lists(raw, index, |raw.calls|, calls, at) && |at| > 0
    ensures !IsCode(raw) && |calls| == |at|
  {
    assert IsEntry(raw, at[0]);
  }

  lemma ListedIsCalled(raw: Raw, aliases: map<string, set<string>>, index: nat, calls: seq<Call>, at: seq<nat>,
                       names: CallNames, p: nat)
    requires raw.Raw? && Lists(raw, index, |raw.calls|, calls, at) && p < |calls|
    requires CallsNamed(raw, aliases, calls, at, names)
    ensures Called(raw, aliases, index, calls[p], names)
  {
    hide Resolve, EntryId, NamedBy;
    assert Introduces(raw, index, calls[p].id, raw.calls[at[p]].name);
  }

  lemma NamesAreIntroduced(raw: Raw, aliases: map<string, set<string>>, index: nat, before: CallNames,
                           names: CallNames)
    requires raw.Raw? && Names(raw, aliases, index, |raw.calls|, before, names) && !IsCode(raw)
    ensures Keeps(before, names)
    ensures forall id, alias | Introduces(raw, index, id, alias) :: id in names
    ensures forall id | id in names && id !in before :: Introduced(raw, aliases, index, id, names[id])
  {
    hide Resolve, EntryId;
    forall id | id in names && id !in before
      ensures Introduced(raw, aliases, index, id, names[id])
    {
      assert EntryNames(raw, aliases, index, |raw.calls|, id, names[id]);
      var e: nat :| e < |raw.calls| && IsEntry(raw, e) && EntryId(raw, index, e) == id
                    && names[id] == Resolve(aliases, raw.calls[e].name);
      assert Introduces(raw, index, id, raw.calls[e].name);
    }
  }

  // ---------------------------------------------------------------- the calls of a conversation

  // The name was given by the first message that shows the id.
  ghost predicate FirstNamed(aliases: map<string, set<string>>, messages: seq<Raw>, n: nat, id: string, name: string)
    requires n <= |messages|
  {
    exists i: nat :: i < n && Introduced(messages[i], aliases, i, id, name) && NotBefore(messages, i, id)
  }

  ghost predicate NotBefore(messages: seq<Raw>, i: nat, id: string)
    requires i <= |messages|
  {
    forall j: nat, alias | j < i :: !Introduces(messages[j], j, id, alias)
  }

  // Provenance names come first; any other id is named where it is first shown.
  ghost predicate NamesOf(maps: Maps, messages: seq<Raw>, n: nat, names: CallNames)
    requires n <= |messages|
  {
    && Keeps(maps.names, names)
    && (forall id | id in names && id !in maps.names :: FirstNamed(maps.aliases, messages, n, id, names[id]))
    && (forall i: nat, id, alias | i < n && Introduces(messages[i], i, id, alias) :: id in names)
  }

  ghost predicate CallsOfAll(maps: Maps, messages: seq<Raw>, n: nat, ix: Index)
    requires n <= |messages|
  {
    && |ix.made| == n
    && (forall i | 0 <= i < n :: Shows(messages[i], i, ix.made[i]))
    && (forall i, p | 0 <= i < n && 0 <= p < |ix.made[i]| ::
          Called(messages[i], maps.aliases, i, ix.made[i][p], ix.names))
  }

  lemma {:induction false} IndexHolds(maps: Maps, messages: seq<Raw>, n: nat)
    requires n <= |messages|
    ensures var ix := Indexed(maps, messages, n);
            CallsOfAll(maps, messages, n, ix) && NamesOf(maps, messages, n, ix.names)
  {
    hide CallsOf, Resolve, Shows, Called, Introduces, NamesOf, CallsOfAll, Extends;
    if n == 0 {
      NothingIndexed(maps, messages);
    } else {
      IndexHolds(maps, messages, n - 1);
      var before, ix := Indexed(maps, messages, n - 1), Indexed(maps, messages, n);
      MessageShows(before.names, maps.aliases, n - 1, messages[n - 1]);
      var calls := CallsOf(before.names, maps.aliases, n - 1, messages[n - 1]).0;
      NamesGrow(maps, messages, n - 1, before.names, calls, ix.names);
      CallsGrow(maps, messages, n - 1, before, calls, ix);
    }
  }

  lemma NothingIndexed(maps: Maps, messages: seq<Raw>)
    ensures var ix := Indexed(maps, messages, 0);
            CallsOfAll(maps, messages, 0, ix) && NamesOf(maps, messages, 0, ix.names)
  {
  }

  lemma NamesGrow(maps: Maps, messages: seq<Raw>, n: nat, before: CallNames, calls: seq<Call>, names: CallNames)
    requires n < |messages| && NamesOf(maps, messages, n, before)
    requires Extends(messages[n], maps.aliases, n, before, calls, names)
    ensures NamesOf(maps, messages, n + 1, names)
  {
    hide Introduces, Resolve, Called, Introduced;
    forall id | id in names && id !in maps.names
      ensures FirstNamed(maps.aliases, messages, n + 1, id, names[id])
    {
      if id in before {
        assert FirstNamed(maps.aliases, messages, n, id, before[id]);
      } else {
        assert Introduced(messages[n], maps.aliases, n, id, names[id]) && NotBefore(messages, n, id);
      }
    }
  }

  lemma CallsGrow(maps: Maps, messages: seq<Raw>, n: nat, before: Index, calls: seq<Call>, ix: Index)
    requires n < |messages| && CallsOfAll(maps, messages, n, before) && ix.made == before.made + [calls]
    requires Shows(messages[n], n, calls) && Extends(messages[n], maps.aliases, n, before.names, calls, ix.names)
    ensures CallsOfAll(maps, messages, n + 1, ix)
  {
    hide Introduces, Resolve, Shows;
    forall i, p | 0 <= i < n + 1 && 0 <= p < |ix.made[i]|
      ensures Called(messages[i], maps.aliases, i, ix.made[i][p], ix.names)
    {
      if i < n {
        assert Called(messages[i], maps.aliases, i, before.made[i][p], before.names);
      }
    }
  }

  lemma CallHasId(raw: Raw, index: nat, calls: seq<Call>, p: nat)
    requires Shows(raw, index, calls) && p < |calls|
    ensures calls[p].id != ""
  {
  }

  // ---------------------------------------------------------------- the calls under a message id

  // The ids shown by the messages with this id, each as often as it is shown.
  ghost function ShownUnder(messages: seq<Raw>, made: seq<seq<Call>>, m: string, n: nat): multiset<string>
    requires n <= |messages| && n <= |made|
  {
    if n == 0 then multiset{}
    else
      ShownUnder(messages, made, m, n - 1) +
      (if messages[n - 1].Raw? && m != "" && messages[n - 1].id == m then multiset(Ids(made[n - 1])) else multiset{})
  }

  lemma {:induction false} ShownStays(messages: seq<Raw>, made: seq<seq<Call>>, more: seq<seq<Call>>, m: string, n: nat)
    requires n <= |messages| && n <= |made| && made <= more
    ensures ShownUnder(messages, made, m, n) == ShownUnder(messages, more, m, n)
  {
    if n > 0 {
      ShownStays(messages, made, more, m, n - 1);
    }
  }

  lemma {:induction false} IndexedUnder(maps: Maps, messages: seq<Raw>, n: nat, m: string)
    requires n <= |messages|
    ensures var ix := Indexed(maps, messages, n);
            multiset(Under(ix.byMessage, m)) == ShownUnder(messages, ix.made, m, n)
  {
    hide CallsOf, Under, Ids;
    if n == 0 {
      NothingUnder(m);
    } else {
      IndexedUnder(maps, messages, n - 1, m);
      var before, ix := Indexed(maps, messages, n - 1), Indexed(maps, messages, n);
      var (calls, names) := CallsOf(before.names, maps.aliases, n - 1, messages[n - 1]);
      ShownStays(messages, before.made, ix.made, m, n - 1);
      OneMoreUnder(before, messages[n - 1], calls, names, m);
    }
  }

  lemma NothingUnder(m: string)
    ensures Under(map[], m) == []
  {
  }

  lemma OneMoreUnder(ix: Index, raw: Raw, calls: seq<Call>, names: CallNames, m: string)
    ensures multiset(Under(Extended(ix, raw, calls, names).byMessage, m)) ==
            multiset(Under(ix.byMessage, m)) +
            (if raw.Raw? && m != "" && raw.id == m then multiset(Ids(calls)) else multiset{})
  {
  }

  lemma {:induction false} JoinedAre(known: seq<string>, more: seq<string>, id: string)
    ensures multiset(Joined(known, more))[id] ==
            if id in known then multiset(known)[id] else if id in more then 1 else 0
  {
    if more != [] {
      var n := |more| - 1;
      JoinedAre(known, more[..n], id);
      assert more == more[..n] + [more[n]];
      assert id in Joined(known, more[..n]) <==> multiset(Joined(known, more[..n]))[id] > 0;
    }
  }

  // Under a message id stand the calls its messages show, and those provenance adds, once each.
  lemma UnderIs(maps: Maps, messages: seq<Raw>, m: string, id: string)
    ensures var ix := FullIndex(maps, messages);
            var shown := ShownUnder(messages, ix.made, m, |messages|)[id];
            multiset(Under(ix.byMessage, m))[id] ==
            if shown > 0 then shown else if Member(maps.members, m, id) then 1 else 0
  {
    hide Indexed;
    var before := Indexed(maps, messages, |messages|).byMessage;
    IndexedUnder(maps, messages, |messages|, m);
    assert id in Under(before, m) <==> multiset(Under(before, m))[id] > 0;
    if m in maps.members {
      JoinedAre(Under(before, m), maps.members[m], id);
    }
  }
}
