// What provenance says about tool identities: which stable name an alias stands for, and
// which call a message belongs to.
module Identity {

  // A tool of an App manifest, with its provider-independent name.
  datatype Tool = NotATool | Tool(name: string, stable: string)

  datatype App = NotAnApp | App(tools: seq<Tool>)

  // A used tool call as the runner recorded it; "" where a field is missing.
  datatype Used =
    | NotACall
    | Used(appId: string, canonical: string, stable: string, callId: string, callMessage: string,
           resultMessage: string, runtimeName: string, recipient: string)

  datatype Maps = Maps(
    aliases: map<string, set<string>>,
    names: map<string, string>,          // call id -> stable name
    results: map<string, string>,        // result message id -> call id
    members: map<string, seq<string>>)   // call message id -> call ids

  // ---------------------------------------------------------------- what the maps mean

  predicate Counted(u: Used) {
    u.Used? && u.appId != "" && u.canonical != ""
  }

  predicate ToolAt(apps: seq<App>, i: int, j: int, alias: string, stable: string) {
    && 0 <= i < |apps| && apps[i].App? && 0 <= j < |apps[i].tools|
    && apps[i].tools[j] == Tool(alias, stable) && alias != ""
  }

  predicate UsedAs(used: seq<Used>, k: int, alias: string, stable: string) {
    && 0 <= k < |used| && Counted(used[k]) && used[k].stable == stable && alias != ""
    && (alias == used[k].canonical || alias == used[k].runtimeName || alias == used[k].recipient)
  }

  predicate CallAt(used: seq<Used>, k: int, call: string) {
    0 <= k < |used| && Counted(used[k]) && used[k].callId == call && call != ""
  }

  predicate ResultAt(used: seq<Used>, k: int, message: string) {
    0 <= k < |used| && Counted(used[k]) && used[k].callId != "" && used[k].resultMessage == message && message != ""
  }

  predicate MemberAt(used: seq<Used>, k: int, message: string, call: string) {
    CallAt(used, k, call) && used[k].callMessage == message && message != ""
  }

  predicate Before(i: int, j: int, a: int, t: int) {
    i < a || (i == a && j < t)
  }

  predicate Lists(aliases: map<string, set<string>>, alias: string, stable: string) {
    alias in aliases && stable in aliases[alias]
  }

  ghost predicate FromTools(apps: seq<App>, a: int, t: int, alias: string, stable: string) {
    exists i, j :: ToolAt(apps, i, j, alias, stable) && Before(i, j, a, t)
  }

  ghost predicate FromCalls(used: seq<Used>, n: int, alias: string, stable: string) {
    exists k :: UsedAs(used, k, alias, stable) && k < n
  }

  // The aliases of the tools before (a, t) and of the calls before n.
  ghost predicate AliasesAre(aliases: map<string, set<string>>, apps: seq<App>, a: int, t: int, used: seq<Used>,
                             n: int) {
    && (forall alias, stable :: Lists(aliases, alias, stable) <==>
          FromTools(apps, a, t, alias, stable) || FromCalls(used, n, alias, stable))
    && (forall alias | alias in aliases :: aliases[alias] != {})
  }

  predicate LastCall(used: seq<Used>, n: int, c: string, k: int) {
    CallAt(used, k, c) && k < n && forall l | k < l < n :: !CallAt(used, l, c)
  }

  predicate LastResult(used: seq<Used>, n: int, m: string, k: int) {
    ResultAt(used, k, m) && k < n && forall l | k < l < n :: !ResultAt(used, l, m)
  }

  // The last call with an id gives its name, the last call of a result its id.
  ghost predicate NamesAre(names: map<string, string>, used: seq<Used>, n: int) {
    && (forall k, c | CallAt(used, k, c) && k < n :: c in names)
    && (forall c | c in names :: exists k :: LastCall(used, n, c, k) && names[c] == used[k].stable)
  }

  ghost predicate ResultsAre(results: map<string, string>, used: seq<Used>, n: int) {
    && (forall k, m | ResultAt(used, k, m) && k < n :: m in results)
    && (forall m | m in results :: exists k :: LastResult(used, n, m, k) && results[m] == used[k].callId)
  }

  predicate Member(members: map<string, seq<string>>, m: string, c: string) {
    m in members && c in members[m]
  }

  ghost predicate HasMember(used: seq<Used>, n: int, m: string, c: string) {
    exists k :: MemberAt(used, k, m, c) && k < n
  }

  predicate NoRepeats(calls: seq<string>) {
    forall i, j | 0 <= i < j < |calls| :: calls[i] != calls[j]
  }

  // Each message lists its calls, each once.
  ghost predicate MembersAre(members: map<string, seq<string>>, used: seq<Used>, n: int) {
    && (forall m, c :: Member(members, m, c) <==> HasMember(used, n, m, c))
    && (forall m | m in members :: NoRepeats(members[m]) && exists c :: HasMember(used, n, m, c))
  }

  ghost predicate Describes(maps: Maps, apps: seq<App>, used: seq<Used>) {
    && AliasesAre(maps.aliases, apps, |apps|, 0, used, |used|)
    && NamesAre(maps.names, used, |used|)
    && ResultsAre(maps.results, used, |used|)
    && MembersAre(maps.members, used, |used|)
  }

  // ---------------------------------------------------------------- building them

  function Add(aliases: map<string, set<string>>, alias: string, stable: string): map<string, set<string>> {
    aliases[alias := (if alias in aliases then aliases[alias] else {}) + {stable}]
  }

  method ToolAliases(apps: seq<App>, used: seq<Used>) returns (aliases: map<string, set<string>>)
    ensures AliasesAre(aliases, apps, |apps|, 0, used, 0)
  {
    aliases := map[];
    var a := 0;
    while a < |apps|
      invariant 0 <= a <= |apps|
      invariant AliasesAre(aliases, apps, a, 0, used, 0)
    {
      if apps[a].App? {
        var t := 0;
        while t < |apps[a].tools|
          invariant 0 <= t <= |apps[a].tools|
          invariant AliasesAre(aliases, apps, a, t, used, 0)
        {
          var tool := apps[a].tools[t];
          ToolIsAdded(aliases, apps, a, t, used);
          if tool.Tool? && tool.name != "" {
            aliases := Add(aliases, tool.name, tool.stable);
          }
          t := t + 1;
        }
      }
      ghost var end := if apps[a].App? then |apps[a].tools| else 0;
      forall alias, stable
        ensures FromTools(apps, a + 1, 0, alias, stable) <==> FromTools(apps, a, end, alias, stable)
      {
        AppIsDone(apps, a, alias, stable);
      }
      a := a + 1;
    }
  }

  lemma ToolIsAdded(aliases: map<string, set<string>>, apps: seq<App>, a: nat, t: nat, used: seq<Used>)
    requires a < |apps| && apps[a].App? && t < |apps[a].tools|
    requires AliasesAre(aliases, apps, a, t, used, 0)
    ensures var tool := apps[a].tools[t];
            if tool.Tool? && tool.name != ""
            then AliasesAre(Add(aliases, tool.name, tool.stable), apps, a, t + 1, used, 0)
            else AliasesAre(aliases, apps, a, t + 1, used, 0)
  {
    forall alias, stable
      ensures FromTools(apps, a, t + 1, alias, stable) <==>
                FromTools(apps, a, t, alias, stable) || ToolAt(apps, a, t, alias, stable)
    {
      if ToolAt(apps, a, t, alias, stable) {
        assert Before(a, t, a, t + 1);
      } else if FromTools(apps, a, t, alias, stable) {
        var i, j :| ToolAt(apps, i, j, alias, stable) && Before(i, j, a, t);
        assert Before(i, j, a, t + 1);
      }
    }
    var tool := apps[a].tools[t];
    if tool.Tool? && tool.name != "" {
      forall alias, stable
        ensures Lists(Add(aliases, tool.name, tool.stable), alias, stable) <==>
                  Lists(aliases, alias, stable) || ToolAt(apps, a, t, alias, stable)
      {
      }
    }
  }

  lemma AppIsDone(apps: seq<App>, a: nat, alias: string, stable: string)
    requires a < |apps|
    ensures FromTools(apps, a + 1, 0, alias, stable) <==>
              FromTools(apps, a, if apps[a].App? then |apps[a].tools| else 0, alias, stable)
  {
    var t := if apps[a].App? then |apps[a].tools| else 0;
    assert forall i, j | ToolAt(apps, i, j, alias, stable) :: Before(i, j, a + 1, 0) <==> Before(i, j, a, t);
  }

  method CallAliases(apps: seq<App>, used: seq<Used>, k: nat, before: map<string, set<string>>)
    returns (aliases: map<string, set<string>>)
    requires k < |used| && AliasesAre(before, apps, |apps|, 0, used, k)
    ensures AliasesAre(aliases, apps, |apps|, 0, used, k + 1)
  {
    aliases := before;
    var call := used[k];
    if !Counted(call) {
      return;
    }
    aliases := Add(aliases, call.canonical, call.stable);
    if call.runtimeName != "" {
      aliases := Add(aliases, call.runtimeName, call.stable);
    }
    if call.recipient != "" {
      aliases := Add(aliases, call.recipient, call.stable);
    }
    CallIsAdded(apps, used, k, before, aliases);
  }

  lemma CallIsAdded(apps: seq<App>, used: seq<Used>, k: nat, before: map<string, set<string>>,
                    aliases: map<string, set<string>>)
    requires k < |used| && AliasesAre(before, apps, |apps|, 0, used, k) && Counted(used[k])
    requires forall alias, stable :: Lists(aliases, alias, stable) <==>
               Lists(before, alias, stable) || UsedAs(used, k, alias, stable)
    requires forall alias | alias in aliases :: aliases[alias] != {}
    ensures AliasesAre(aliases, apps, |apps|, 0, used, k + 1)
  {
    assert forall alias, stable :: FromCalls(used, k + 1, alias, stable) <==>
        FromCalls(used, k, alias, stable) || UsedAs(used, k, alias, stable);
  }

  method IdentityMaps(used: seq<Used>, apps: seq<App>) returns (maps: Maps)
    ensures Describes(maps, apps, used)
  {
    var aliases := ToolAliases(apps, used);
    var names: map<string, string> := map[];
    var results: map<string, string> := map[];
    var members: map<string, seq<string>> := map[];
    var k := 0;
    while k < |used|
      invariant 0 <= k <= |used|
      invariant AliasesAre(aliases, apps, |apps|, 0, used, k)
      invariant NamesAre(names, used, k) && ResultsAre(results, used, k) && MembersAre(members, used, k)
    {
      aliases := CallAliases(apps, used, k, aliases);
      var call := used[k];
      CallIsNamed(used, k, names, results, members);
      if Counted(call) && call.callId != "" {
        names := names[call.callId := call.stable];
        if call.callMessage != "" {
          members := Join(members, call.callMessage, call.callId);
        }
        if call.resultMessage != "" {
          results := results[call.resultMessage := call.callId];
        }
      }
      k := k + 1;
    }
    maps := Maps(aliases, names, results, members);
  }

  function Join(members: map<string, seq<string>>, message: string, call: string): map<string, seq<string>> {
    var known := if message in members then members[message] else [];
    members[message := if call in known then known else known + [call]]
  }

  lemma CallIsNamed(used: seq<Used>, k: nat, names: map<string, string>, results: map<string, string>,
                    members: map<string, seq<string>>)
    requires k < |used|
    requires NamesAre(names, used, k) && ResultsAre(results, used, k) && MembersAre(members, used, k)
    ensures var call := used[k];
            && NamesAre(if Counted(call) && call.callId != "" then names[call.callId := call.stable] else names,
                        used, k + 1)
            && ResultsAre(if Counted(call) && call.callId != "" && call.resultMessage != ""
                          then results[call.resultMessage := call.callId] else results, used, k + 1)
            && MembersAre(if Counted(call) && call.callId != "" && call.callMessage != ""
                          then Join(members, call.callMessage, call.callId) else members, used, k + 1)
  {
    NameAdded(used, k, names);
    ResultAdded(used, k, results);
    MemberAdded(used, k, members);
  }

  lemma NameAdded(used: seq<Used>, k: nat, names: map<string, string>)
    requires k < |used| && NamesAre(names, used, k)
    ensures var call := used[k];
            NamesAre(if Counted(call) && call.callId != "" then names[call.callId := call.stable] else names,
                     used, k + 1)
  {
    var call := used[k];
    var names' := if Counted(call) && call.callId != "" then names[call.callId := call.stable] else names;
    forall c | c in names'
      ensures exists l :: LastCall(used, k + 1, c, l) && names'[c] == used[l].stable
    {
      if CallAt(used, k, c) {
        assert LastCall(used, k + 1, c, k);
      } else {
        var l :| LastCall(used, k, c, l) && names[c] == used[l].stable;
        assert LastCall(used, k + 1, c, l);
      }
    }
  }

  lemma ResultAdded(used: seq<Used>, k: nat, results: map<string, string>)
    requires k < |used| && ResultsAre(results, used, k)
    ensures var call := used[k];
            ResultsAre(if Counted(call) && call.callId != "" && call.resultMessage != ""
                       then results[call.resultMessage := call.callId] else results, used, k + 1)
  {
    var call := used[k];
    var results' := if Counted(call) && call.callId != "" && call.resultMessage != ""
                    then results[call.resultMessage := call.callId] else results;
    forall m | m in results'
      ensures exists l :: LastResult(used, k + 1, m, l) && results'[m] == used[l].callId
    {
      if ResultAt(used, k, m) {
        assert LastResult(used, k + 1, m, k);
      } else {
        var l :| LastResult(used, k, m, l) && results[m] == used[l].callId;
        assert LastResult(used, k + 1, m, l);
      }
    }
  }

  lemma MemberAdded(used: seq<Used>, k: nat, members: map<string, seq<string>>)
    requires k < |used| && MembersAre(members, used, k)
    ensures var call := used[k];
            MembersAre(if Counted(call) && call.callId != "" && call.callMessage != ""
                       then Join(members, call.callMessage, call.callId) else members, used, k + 1)
  {
    forall m, c
      ensures HasMember(used, k + 1, m, c) <==> HasMember(used, k, m, c) || MemberAt(used, k, m, c)
    {
    }
    if used[k].Used? && MemberAt(used, k, used[k].callMessage, used[k].callId) {
      JoinAdds(members, used[k].callMessage, used[k].callId);
    }
  }

  lemma JoinAdds(members: map<string, seq<string>>, m: string, c: string)
    requires forall n | n in members :: NoRepeats(members[n])
    ensures var members' := Join(members, m, c);
            && (forall n, d :: Member(members', n, d) <==> Member(members, n, d) || (n == m && d == c))
            && (forall n | n in members' :: NoRepeats(members'[n]) && (n in members || n == m))
  {
    var known := if m in members then members[m] else [];
    assert forall d :: d in known + [c] <==> d in known || d == c;
  }

  // ---------------------------------------------------------------- resolving an alias

  function TheOnly(s: set<string>): (x: string)
    requires |s| == 1
    ensures s == {x}
  {
    OneElement(s);
    var x :| x in s;
    x
  }

  lemma OneElement(s: set<string>)
    requires |s| == 1
    ensures forall x, y | x in s && y in s :: x == y
  {
    var x :| x in s;
    assert |s - {x}| == 0;
    assert s == {x};
  }

  function Resolve(aliases: map<string, set<string>>, alias: string): string {
    if alias in aliases && |aliases[alias]| == 1 then TheOnly(aliases[alias]) else alias
  }

  // An alias that only one declared identity answers to resolves to it, whatever the order
  // of the provenance entries; any other alias is left as it is.
  lemma ResolvesUniquely(maps: Maps, apps: seq<App>, used: seq<Used>, alias: string, stable: string)
    requires Describes(maps, apps, used)
    ensures (Bears(apps, used, alias, stable) && forall s | Bears(apps, used, alias, s) :: s == stable) ==>
              Resolve(maps.aliases, alias) == stable
    ensures (forall s | Bears(apps, used, alias, s) :: exists t :: t != s && Bears(apps, used, alias, t)) ==>
              Resolve(maps.aliases, alias) == alias
  {
    assert forall s :: Bears(apps, used, alias, s) <==> Lists(maps.aliases, alias, s);
    if alias in maps.aliases && Bears(apps, used, alias, stable)
       && forall s | Bears(apps, used, alias, s) :: s == stable {
      assert Lists(maps.aliases, alias, stable);
      assert forall s :: Lists(maps.aliases, alias, s) <==> s in maps.aliases[alias];
      assert maps.aliases[alias] == {stable};
    }
    if alias in maps.aliases && |maps.aliases[alias]| == 1 {
      assert Lists(maps.aliases, alias, TheOnly(maps.aliases[alias]));
      assert forall s :: Lists(maps.aliases, alias, s) <==> s in maps.aliases[alias];
    }
  }

  // Some manifest tool or some used call is known by this alias and stands for the name.
  ghost predicate Bears(apps: seq<App>, used: seq<Used>, alias: string, stable: string) {
    FromTools(apps, |apps|, 0, alias, stable) || FromCalls(used, |used|, alias, stable)
  }
}
