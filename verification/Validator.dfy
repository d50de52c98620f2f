// The check every exported row must pass: tool calls and tool results pair off.
module Validator {
  import opened Basics
  import opened Trajectory

  // ---------------------------------------------------------------- what is accepted

  predicate Declared(names: seq<string>) {
    && (forall k | 0 <= k < |names| :: names[k] != "")
    && (forall k, l | 0 <= k < l < |names| :: names[k] != names[l])
  }

  predicate Earlier(i: int, j: int, n: int, m: int) {
    i < n || (i == n && j < m)
  }

  // Every call is usable: named, declared and one of a kind.
  ghost predicate CallsOk(names: seq<string>, messages: seq<Message>) {
    && (forall i, j | IsCallAt(messages, i, j) ::
          messages[i].calls[j].id != "" && messages[i].calls[j].name in names)
    && (forall i, j, n, m | IsCallAt(messages, i, j) && IsCallAt(messages, n, m) && Earlier(i, j, n, m) ::
          messages[i].calls[j].id != messages[n].calls[m].id)
  }

  // The call at (i, j) is answered by the message at n.
  predicate Answers(messages: seq<Message>, n: int, i: int, j: int) {
    && IsTool(messages, n) && IsCallAt(messages, i, j) && i < n
    && messages[n].link == Some(messages[i].calls[j].id)
    && (messages[n].name.None? || messages[n].name.value == "" || messages[n].name.value == messages[i].calls[j].name)
  }

  // Results and calls are in one-to-one correspondence, each result after its call.
  ghost predicate Paired(messages: seq<Message>) {
    && (forall n | IsTool(messages, n) :: exists i, j :: Answers(messages, n, i, j))
    && (forall n, m | IsTool(messages, n) && IsTool(messages, m) && n < m :: messages[n].link != messages[m].link)
    && (forall i, j | IsCallAt(messages, i, j) :: exists n :: Answers(messages, n, i, j))
  }

  ghost predicate WellStructured(names: seq<string>, messages: seq<Message>) {
    Declared(names) && CallsOk(names, messages) && Paired(messages)
  }

  // ---------------------------------------------------------------- the check

  method CheckNames(names: seq<string>) returns (ok: bool)
    ensures ok <==> Declared(names)
  {
    var seen: set<string> := {};
    var k := 0;
    while k < |names|
      invariant 0 <= k <= |names|
      invariant forall l | 0 <= l < k :: names[l] != "" && names[l] in seen
      invariant forall name | name in seen :: name in names[..k]
      invariant forall l, m | 0 <= l < m < k :: names[l] != names[m]
    {
      if names[k] == "" || names[k] in seen {
        return false;
      }
      seen := seen + {names[k]};
      k := k + 1;
    }
    return true;
  }

  // What the check has recorded before call m of message n.
  ghost predicate Recorded(messages: seq<Message>, n: int, m: int, calls: map<string, (string, int)>) {
    && (forall i, j | IsCallAt(messages, i, j) && Earlier(i, j, n, m) ::
          messages[i].calls[j].id in calls && calls[messages[i].calls[j].id] == (messages[i].calls[j].name, i))
    && (forall id | id in calls ::
          exists i, j :: IsCallAt(messages, i, j) && Earlier(i, j, n, m) && messages[i].calls[j].id == id)
  }

  ghost predicate CallsOkUpTo(names: seq<string>, messages: seq<Message>, n: int, m: int) {
    && (forall i, j | IsCallAt(messages, i, j) && Earlier(i, j, n, m) ::
          messages[i].calls[j].id != "" && messages[i].calls[j].name in names)
    && (forall i, j, k, l | IsCallAt(messages, i, j) && IsCallAt(messages, k, l)
                            && Earlier(i, j, k, l) && Earlier(k, l, n, m) ::
          messages[i].calls[j].id != messages[k].calls[l].id)
  }

  // The results before message n, and the calls they consumed.
  ghost predicate Consumed(messages: seq<Message>, n: int, consumed: set<string>) {
    && (forall k | IsTool(messages, k) && k < n :: exists i, j :: Answers(messages, k, i, j))
    && (forall k, l | IsTool(messages, k) && IsTool(messages, l) && k < l < n :: messages[k].link != messages[l].link)
    && (forall k | IsTool(messages, k) && k < n :: messages[k].link.Some? && messages[k].link.value in consumed)
    && (forall id | id in consumed :: exists k :: IsTool(messages, k) && k < n && messages[k].link == Some(id))
  }

  method CheckCalls(names: seq<string>, messages: seq<Message>, n: nat, before: map<string, (string, int)>)
    returns (ok: bool, calls: map<string, (string, int)>)
    requires n < |messages|
    requires Recorded(messages, n, 0, before) && CallsOkUpTo(names, messages, n, 0)
    ensures ok ==> Recorded(messages, n + 1, 0, calls) && CallsOkUpTo(names, messages, n + 1, 0)
    ensures !ok ==> !CallsOk(names, messages)
  {
    calls := before;
    var made := messages[n].calls;
    var m := 0;
    while m < |made|
      invariant 0 <= m <= |made|
      invariant Recorded(messages, n, m, calls) && CallsOkUpTo(names, messages, n, m)
    {
      if made[m].id == "" || made[m].id in calls || made[m].name !in names {
        RefusedCall(names, messages, n, m, calls);
        return false, calls;
      }
      RecordCall(names, messages, n, m, calls);
      calls := calls[made[m].id := (made[m].name, n)];
      m := m + 1;
    }
    EndOfMessage(names, messages, n, calls);
    return true, calls;
  }

  lemma RecordCall(names: seq<string>, messages: seq<Message>, n: nat, m: nat, calls: map<string, (string, int)>)
    requires IsCallAt(messages, n, m)
    requires Recorded(messages, n, m, calls) && CallsOkUpTo(names, messages, n, m)
    requires var call := messages[n].calls[m]; call.id != "" && call.id !in calls && call.name in names
    ensures var call := messages[n].calls[m];
            Recorded(messages, n, m + 1, calls[call.id := (call.name, n)]) && CallsOkUpTo(names, messages, n, m + 1)
  {
    var call := messages[n].calls[m];
    var calls' := calls[call.id := (call.name, n)];
    forall i, j | IsCallAt(messages, i, j) && Earlier(i, j, n, m)
      ensures messages[i].calls[j].id != call.id
    {
      assert messages[i].calls[j].id in calls;
    }
    assert forall i, j | IsCallAt(messages, i, j) && Earlier(i, j, n, m + 1) ::
        Earlier(i, j, n, m) || (i == n && j == m);
    forall id | id in calls'
      ensures exists i, j :: IsCallAt(messages, i, j) && Earlier(i, j, n, m + 1) && messages[i].calls[j].id == id
    {
      if id == call.id {
        assert IsCallAt(messages, n, m);
      } else {
        var i, j :| IsCallAt(messages, i, j) && Earlier(i, j, n, m) && messages[i].calls[j].id == id;
        assert Earlier(i, j, n, m + 1);
      }
    }
  }

  lemma RefusedCall(names: seq<string>, messages: seq<Message>, n: nat, m: nat, calls: map<string, (string, int)>)
    requires IsCallAt(messages, n, m) && Recorded(messages, n, m, calls)
    requires var call := messages[n].calls[m]; call.id == "" || call.id in calls || call.name !in names
    ensures !CallsOk(names, messages)
  {
    var id := messages[n].calls[m].id;
    if id in calls {
      var i, j :| IsCallAt(messages, i, j) && Earlier(i, j, n, m) && messages[i].calls[j].id == id;
    }
  }

  lemma EndOfMessage(names: seq<string>, messages: seq<Message>, n: nat, calls: map<string, (string, int)>)
    requires n < |messages|
    requires Recorded(messages, n, |messages[n].calls|, calls) && CallsOkUpTo(names, messages, n, |messages[n].calls|)
    ensures Recorded(messages, n + 1, 0, calls) && CallsOkUpTo(names, messages, n + 1, 0)
  {
    assert forall i, j | IsCallAt(messages, i, j) :: Earlier(i, j, n + 1, 0) <==> Earlier(i, j, n, |messages[n].calls|);
  }

  method CheckResult(names: seq<string>, messages: seq<Message>, n: nat,
                     calls: map<string, (string, int)>, before: set<string>)
    returns (ok: bool, consumed: set<string>)
    requires IsTool(messages, n)
    requires Recorded(messages, n + 1, 0, calls) && CallsOkUpTo(names, messages, n + 1, 0)
    requires Consumed(messages, n, before)
    ensures ok ==> Consumed(messages, n + 1, consumed)
    ensures !ok ==> !(CallsOk(names, messages) && Paired(messages))
  {
    consumed := before;
    var result := messages[n];
    if !Truthy(result.link) || result.link.value !in calls {
      return false, consumed;
    }
    var id := result.link.value;
    if id in consumed {
      return false, consumed;
    }
    var (expected, index) := calls[id];
    if index >= n {
      return false, consumed;
    }
    if Truthy(result.name) && result.name.value != expected {
      return false, consumed;
    }
    ghost var i, j :| IsCallAt(messages, i, j) && Earlier(i, j, n + 1, 0) && messages[i].calls[j].id == id;
    assert Answers(messages, n, i, j);
    consumed := consumed + {id};
    return true, consumed;
  }

  // Accepts exactly the well-structured rows.
  method Validate(names: seq<string>, messages: seq<Message>) returns (ok: bool)
    ensures ok <==> WellStructured(names, messages)
  {
    ok := CheckNames(names);
    if !ok {
      return;
    }
    hide CallsOk, Paired, Recorded, CallsOkUpTo, Consumed;
    var calls: map<string, (string, int)> := map[];
    var consumed: set<string> := {};
    var n := 0;
    while n < |messages|
      invariant 0 <= n <= |messages|
      invariant Recorded(messages, n, 0, calls) && CallsOkUpTo(names, messages, n, 0) && Consumed(messages, n, consumed)
    {
      ok, calls := CheckCalls(names, messages, n, calls);
      if !ok {
        return;
      }
      if messages[n].role == ToolRole {
        ok, consumed := CheckResult(names, messages, n, calls, consumed);
        if !ok {
          return;
        }
      }
      n := n + 1;
    }
    ok := calls.Keys - consumed == {};
    Verdict(names, messages, calls, consumed);
  }

  lemma Verdict(names: seq<string>, messages: seq<Message>, calls: map<string, (string, int)>, consumed: set<string>)
    requires Declared(names)
    requires Recorded(messages, |messages|, 0, calls) && CallsOkUpTo(names, messages, |messages|, 0)
    requires Consumed(messages, |messages|, consumed)
    ensures calls.Keys - consumed == {} <==> WellStructured(names, messages)
  {
    assert forall i, j | IsCallAt(messages, i, j) :: Earlier(i, j, |messages|, 0);
    assert CallsOk(names, messages);
    if calls.Keys - consumed == {} {
      forall i, j | IsCallAt(messages, i, j)
        ensures exists n :: Answers(messages, n, i, j)
      {
        var id := messages[i].calls[j].id;
        assert id in calls.Keys - (calls.Keys - consumed);
        var n :| IsTool(messages, n) && n < |messages| && messages[n].link == Some(id);
        var k, l :| Answers(messages, n, k, l);
        assert Earlier(i, j, k, l) || Earlier(k, l, i, j) || (i == k && j == l);
      }
    } else {
      var id :| id in calls.Keys - consumed;
      var i, j :| IsCallAt(messages, i, j) && messages[i].calls[j].id == id;
      forall n
        ensures !Answers(messages, n, i, j)
      {
        assert IsTool(messages, n) ==> messages[n].link.value in consumed;
      }
    }
  }
}
