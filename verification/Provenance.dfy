// Which App tools a conversation really called: assistant calls are joined to the tool
// results that answer them, and identities are learned from both sides.
module Provenance {
  import opened Text

  // What one message or call says about a tool; "" where it says nothing.
  datatype Identity = Identity(appId: string, canonical: string, uiName: string, runtime: string, recipient: string)

  const NOTHING := Identity("", "", "", "", "")

  datatype Call = Call(id: string, message: string, result: string, identity: Identity)

  // An entry of tool_calls, with the identity it resolves to.
  datatype RawCall = NotARawCall | RawCall(id: string, identity: Identity)

  datatype Role = Assistant | Tool | Other

  datatype Message =
    | NotAMessage
    | Message(role: Role, id: string, recipient: string, toolCalls: seq<RawCall>,
              addressed: Identity,       // the identity its recipient resolves to
              observed: Identity,        // what its metadata says about an invoked resource
              link: string)              // tool_call_id or parent_id

  // ---------------------------------------------------------------- identities

  function Or(a: string, b: string): string {
    if a != "" then a else b
  }

  // What is known is kept; what is missing is learned.
  function Merged(a: Identity, b: Identity): Identity {
    Identity(Or(a.appId, b.appId), Or(a.canonical, b.canonical), Or(a.uiName, b.uiName),
             Or(a.runtime, b.runtime), Or(a.recipient, b.recipient))
  }

  predicate Clash(a: string, b: string) {
    a != "" && b != "" && a != b
  }

  // The part after the last dot.
  function LastPart(s: string): string {
    var parts := Split(s, '.');
    parts[|parts| - 1]
  }

  predicate Compatible(call: Call, observed: Identity) {
    var mine := call.identity;
    && !Clash(mine.appId, observed.appId)
    && !Clash(mine.canonical, observed.canonical)
    && (observed.runtime != "" && mine.recipient != "" && mine.recipient != "api_tool.call_tool"
        && '.' in mine.recipient && LastPart(mine.recipient) != observed.runtime ==>
          mine.canonical == observed.runtime)
  }

  // No field that was set is ever changed.
  predicate Kept(a: string, b: string) {
    a != "" ==> b == a
  }

  predicate Grown(a: Call, b: Call) {
    && b.id == a.id && b.message == a.message && Kept(a.result, b.result)
    && Kept(a.identity.appId, b.identity.appId) && Kept(a.identity.canonical, b.identity.canonical)
    && Kept(a.identity.uiName, b.identity.uiName) && Kept(a.identity.runtime, b.identity.runtime)
    && Kept(a.identity.recipient, b.identity.recipient)
  }

  predicate AllGrown(before: seq<Call>, after: seq<Call>) {
    |before| <= |after| && forall c | 0 <= c < |before| :: Grown(before[c], after[c])
  }

  // ---------------------------------------------------------------- calls of a message

  function IdOr(m: Message, index: nat): string
    requires m.Message?
  {
    if m.id != "" then m.id else "message:" + Digits(index)
  }

  function CreatedUpTo(m: Message, index: nat, k: nat): seq<Call>
    requires m.Message? && k <= |m.toolCalls|
  {
    if k == 0 then []
    else
      var raw := m.toolCalls[k - 1];
      var id := if raw.RawCall? && raw.id != "" then raw.id else IdOr(m, index) + ":" + Digits(k - 1);
      CreatedUpTo(m, index, k - 1) +
      (if raw.NotARawCall? then [] else [Call(id, m.id, "", raw.identity)])
  }

  function Created(m: Message, index: nat): seq<Call>
    requires m.Message?
  {
    if m.role != Assistant then []
    else
      var made := CreatedUpTo(m, index, |m.toolCalls|);
      if made != [] then made
      else if m.recipient != "" && m.recipient != "all" then [Call(IdOr(m, index), m.id, "", m.addressed)]
      else []
  }

  method Create(m: Message, index: nat) returns (created: seq<Call>)
    requires m.Message?
    ensures created == Created(m, index)
  {
    created := [];
    if m.role == Assistant {
      var offset := 0;
      while offset < |m.toolCalls|
        invariant 0 <= offset <= |m.toolCalls|
        invariant created == CreatedUpTo(m, index, offset)
      {
        var raw := m.toolCalls[offset];
        if raw.RawCall? {
          var id := raw.id;
          if id == "" {
            id := IdOr(m, index) + ":" + Digits(offset);
          }
          created := created + [Call(id, m.id, "", raw.identity)];
        }
        offset := offset + 1;
      }
    }
    if m.role == Assistant && created == [] && m.recipient != "" && m.recipient != "all" {
      created := [Call(IdOr(m, index), m.id, "", m.addressed)];
    }
  }

  // ---------------------------------------------------------------- the list of calls

  // Made by the k-th call of a message, or put in for an observation no call accounts for.
  datatype Source = Made(index: nat, k: nat) | Observed(index: nat)

  // The calls, the places of those still waiting for a result, where each call comes from,
  // and the message that answered it, -1 if none did.
  datatype State = State(calls: seq<Call>, pending: seq<nat>, sources: seq<Source>, answers: seq<int>) {
    predicate Ready() {
      |sources| == |answers| == |calls| && Places(calls, pending)
    }
  }

  predicate Places(calls: seq<Call>, pending: seq<nat>) {
    forall q | 0 <= q < |pending| :: pending[q] < |calls|
  }

  // ---------------------------------------------------------------- finding the call of an observation

  predicate Named(call: Call, link: string) {
    call.id == link || call.message == link
  }

  predicate Matches(call: Call, observed: Identity, link: string) {
    call.result == "" && (link == "" || Named(call, link)) && Compatible(call, observed)
  }

  // The place in pending of the latest waiting call that matches; -1 if there is none.
  predicate IsLatest(calls: seq<Call>, pending: seq<nat>, observed: Identity, link: string, p: int)
    requires Places(calls, pending)
  {
    && -1 <= p < |pending|
    && (p >= 0 ==> Matches(calls[pending[p]], observed, link))
    && (forall q | p < q < |pending| :: !Matches(calls[pending[q]], observed, link))
  }

  function LatestOf(calls: seq<Call>, pending: seq<nat>, observed: Identity, link: string): (p: int)
    requires Places(calls, pending)
    ensures IsLatest(calls, pending, observed, link, p)
  {
    if pending == [] then -1
    else if Matches(calls[pending[|pending| - 1]], observed, link) then |pending| - 1
    else LatestOf(calls, pending[..|pending| - 1], observed, link)
  }

  method Latest(calls: seq<Call>, pending: seq<nat>, observed: Identity, link: string) returns (p: int)
    requires Places(calls, pending)
    ensures p == LatestOf(calls, pending, observed, link)
  {
    p := |pending| - 1;
    while p >= 0
      invariant -1 <= p < |pending|
      invariant forall q | p < q < |pending| :: !Matches(calls[pending[q]], observed, link)
    {
      if Matches(calls[pending[p]], observed, link) {
        return;
      }
      p := p - 1;
    }
  }

  // An explicit link decides where it can; otherwise the latest compatible call is taken.
  predicate IsChoice(calls: seq<Call>, pending: seq<nat>, m: Message, p: int)
    requires m.Message? && Places(calls, pending)
  {
    if exists q | 0 <= q < |pending| :: Matches(calls[pending[q]], m.observed, m.link)
    then IsLatest(calls, pending, m.observed, m.link, p)
    else IsLatest(calls, pending, m.observed, "", p)
  }

  function Choice(calls: seq<Call>, pending: seq<nat>, m: Message): (p: int)
    requires m.Message? && Places(calls, pending)
    ensures IsChoice(calls, pending, m, p)
  {
    var linked := LatestOf(calls, pending, m.observed, m.link);
    if linked != -1 then linked else LatestOf(calls, pending, m.observed, "")
  }

  method FindCall(calls: seq<Call>, pending: seq<nat>, m: Message) returns (p: int)
    requires m.Message? && Places(calls, pending)
    ensures p == Choice(calls, pending, m) && IsChoice(calls, pending, m, p)
  {
    p := -1;
    if m.link != "" {
      p := Latest(calls, pending, m.observed, m.link);
    }
    if p == -1 {
      p := Latest(calls, pending, m.observed, "");
    }
  }

  // list.remove: the first entry that is equal to the call, by value; -1 if there is none.
  predicate IsFirstEqual(calls: seq<Call>, pending: seq<nat>, c: nat, p: int)
    requires c < |calls| && Places(calls, pending)
  {
    && -1 <= p < |pending|
    && (p >= 0 ==> calls[pending[p]] == calls[c])
    && (forall q | 0 <= q < (if p == -1 then |pending| else p) :: calls[pending[q]] != calls[c])
  }

  function FirstEqual(calls: seq<Call>, pending: seq<nat>, c: nat): (p: int)
    requires c < |calls| && Places(calls, pending)
    ensures IsFirstEqual(calls, pending, c, p)
  {
    if pending == [] then -1
    else if calls[pending[0]] == calls[c] then 0
    else
      var p := FirstEqual(calls, pending[1..], c);
      if p == -1 then -1 else p + 1
  }

  function Forgotten(calls: seq<Call>, pending: seq<nat>, c: nat): (left: seq<nat>)
    requires c < |calls| && Places(calls, pending)
    ensures Places(calls, left)
  {
    var p := FirstEqual(calls, pending, c);
    if p == -1 then pending else pending[..p] + pending[p + 1..]
  }

  method Forget(calls: seq<Call>, before: seq<nat>, c: nat) returns (pending: seq<nat>)
    requires c < |calls| && Places(calls, before)
    ensures pending == Forgotten(calls, before, c)
    ensures exists p :: IsFirstEqual(calls, before, c, p)
              && pending == if p == -1 then before else before[..p] + before[p + 1..]
  {
    var p := 0;
    while p < |before|
      invariant 0 <= p <= |before|
      invariant forall q | 0 <= q < p :: calls[before[q]] != calls[c]
    {
      if calls[before[p]] == calls[c] {
        assert IsFirstEqual(calls, before, c, p);
        return before[..p] + before[p + 1..];
      }
      p := p + 1;
    }
    assert IsFirstEqual(calls, before, c, -1);
    return before;
  }

  // ---------------------------------------------------------------- the join, one message at a time

  function IdFor(m: Message, index: nat): string
    requires m.Message?
  {
    if m.id != "" then m.id else "observed:" + Digits(index)
  }

  // The call put in for an observation that no waiting call accounts for.
  function PutInFor(m: Message, n: nat): Call
    requires m.Message?
  {
    Call(Or(m.link, IdFor(m, n)), m.link, if m.role == Tool then m.id else "", m.observed)
  }

  // What the observation makes of the call it is attached to.
  function Informed(call: Call, m: Message): Call
    requires m.Message?
  {
    Call(call.id, call.message, if m.role == Tool then m.id else call.result, Merged(call.identity, m.observed))
  }

  function From(start: nat, count: nat): (places: seq<nat>)
    ensures |places| == count && forall k | 0 <= k < count :: places[k] == start + k
  {
    seq(count, k requires 0 <= k => start + k)
  }

  function MadeBy(n: nat, count: nat): (sources: seq<Source>)
    ensures |sources| == count && forall k | 0 <= k < count :: sources[k] == Made(n, k)
  {
    seq(count, k requires 0 <= k => Made(n, k))
  }

  function NoAnswers(count: nat): (answers: seq<int>)
    ensures |answers| == count && forall k | 0 <= k < count :: answers[k] == -1
  {
    seq(count, _ => -1)
  }

  function WithCreated(m: Message, n: nat, s: State): (t: State)
    requires m.Message? && s.Ready()
    ensures t.Ready()
  {
    var made := Created(m, n);
    State(s.calls + made, s.pending + From(|s.calls|, |made|), s.sources + MadeBy(n, |made|),
          s.answers + NoAnswers(|made|))
  }

  // The calls from a place on learn what is observed, where it does not contradict them.
  function Learned(calls: seq<Call>, from: nat, observed: Identity): seq<Call> {
    seq(|calls|, c requires 0 <= c < |calls| =>
      if c >= from && Compatible(calls[c], observed)
      then calls[c].(identity := Merged(calls[c].identity, observed)) else calls[c])
  }

  // A tool message with an id that says something about a tool.
  predicate IsResult(m: Message) {
    m.Message? && m.role == Tool && m.id != "" && m.observed != NOTHING
  }

  // A tool result takes its call off the waiting ones.
  function StillPending(m: Message, calls: seq<Call>, pending: seq<nat>, c: nat): (left: seq<nat>)
    requires m.Message? && c < |calls| && Places(calls, pending)
    ensures Places(calls, left)
  {
    if m.role == Tool then Forgotten(calls, pending, c) else pending
  }

  function PutIn(m: Message, n: nat, s: State): (t: State)
    requires m.Message? && s.Ready()
    ensures t.Ready()
  {
    var calls := s.calls + [PutInFor(m, n)];
    State(calls, StillPending(m, calls, s.pending, |s.calls|), s.sources + [Observed(n)],
          s.answers + [if IsResult(m) then n else -1])
  }

  function Answered(m: Message, n: nat, s: State, c: nat): (t: State)
    requires m.Message? && s.Ready() && c < |s.calls|
    ensures t.Ready()
  {
    var calls := s.calls[c := Informed(s.calls[c], m)];
    State(calls, StillPending(m, calls, s.pending, c), s.sources,
          if IsResult(m) then s.answers[c := n] else s.answers)
  }

  // The observation goes to the call found for it, or to a call of its own.
  function Attached(m: Message, n: nat, s: State): (t: State)
    requires m.Message? && s.Ready()
    ensures t.Ready()
  {
    var p := Choice(s.calls, s.pending, m);
    if p == -1 then PutIn(m, n, s) else Answered(m, n, s, s.pending[p])
  }

  function Step(m: Message, n: nat, s: State): (t: State)
    requires s.Ready()
    ensures t.Ready()
  {
    if m.NotAMessage? then s
    else
      var t := WithCreated(m, n, s);
      if m.observed == NOTHING then t
      else if Created(m, n) != [] then t.(calls := Learned(t.calls, |s.calls|, m.observed))
      else Attached(m, n, t)
  }

  // The state after the first n messages.
  function Run(messages: seq<Message>, n: nat): (s: State)
    requires n <= |messages|
    ensures s.Ready()
  {
    if n == 0 then State([], [], [], []) else Step(messages[n - 1], n - 1, Run(messages, n - 1))
  }

  // An assistant message says something about its own calls.
  method LearnOwn(calls0: seq<Call>, created: nat, observed: Identity) returns (calls: seq<Call>)
    requires created <= |calls0|
    ensures calls == Learned(calls0, |calls0| - created, observed)
  {
    hide Compatible, Merged;
    calls := calls0;
    var c := |calls| - created;
    while c < |calls|
      invariant |calls0| - created <= c <= |calls| == |calls0|
      invariant forall d | 0 <= d < c :: calls[d] == Learned(calls0, |calls0| - created, observed)[d]
      invariant forall d | c <= d < |calls| :: calls[d] == calls0[d]
    {
      if Compatible(calls[c], observed) {
        calls := calls[c := calls[c].(identity := Merged(calls[c].identity, observed))];
      }
      c := c + 1;
    }
  }

  method Attach(m: Message, n: nat, calls0: seq<Call>, pending0: seq<nat>, ghost s: State)
    returns (calls: seq<Call>, pending: seq<nat>)
    requires m.Message? && s.Ready() && s.calls == calls0 && s.pending == pending0
    ensures calls == Attached(m, n, s).calls && pending == Attached(m, n, s).pending
    ensures exists p :: IsChoice(calls0, pending0, m, p)
              && calls == if p == -1 then calls0 + [PutInFor(m, n)]
                          else calls0[pending0[p] := Informed(calls0[pending0[p]], m)]
  {
    hide IsChoice, IsFirstEqual, Forgotten, IsResult;
    calls, pending := calls0, pending0;
    var p := FindCall(calls, pending, m);
    ChoiceIsAPlace(calls, pending, m);
    var c: nat;
    if p == -1 {
      c := |calls|;
      var call := Call(Or(m.link, IdFor(m, n)), m.link, if m.role == Tool then m.id else "", NOTHING);
      calls := calls + [call];
    } else {
      c := pending[p];
    }
    calls := calls[c := calls[c].(identity := Merged(calls[c].identity, m.observed))];
    if m.role == Tool {
      calls := calls[c := calls[c].(result := m.id)];
      assert calls == Attached(m, n, s).calls;
      pending := Forget(calls, pending, c);
    }
  }

  // The calls a conversation made.
  method InvokedToolCalls(messages: seq<Message>) returns (calls: seq<Call>)
    ensures calls == Run(messages, |messages|).calls
  {
    hide Step;
    calls := [];
    var pending: seq<nat> := [];
    var n := 0;
    while n < |messages|
      invariant 0 <= n <= |messages|
      invariant calls == Run(messages, n).calls && pending == Run(messages, n).pending
    {
      calls, pending := Join(messages[n], n, calls, pending, Run(messages, n));
      n := n + 1;
    }
  }

  method Join(m: Message, n: nat, calls0: seq<Call>, pending0: seq<nat>, ghost s: State)
    returns (calls: seq<Call>, pending: seq<nat>)
    requires s.Ready() && s.calls == calls0 && s.pending == pending0
    ensures calls == Step(m, n, s).calls && pending == Step(m, n, s).pending
  {
    hide Created, Attached;
    calls, pending := calls0, pending0;
    if m.NotAMessage? {
      return;
    }
    var created := Create(m, n);
    calls := calls + created;
    pending := pending + From(|calls0|, |created|);
    if m.role == Assistant && created != [] && m.observed != NOTHING {
      calls := LearnOwn(calls, |created|, m.observed);
      return;
    }
    if m.observed == NOTHING {
      return;
    }
    OnlyAssistantsCall(m, n);
    calls, pending := Attach(m, n, calls, pending, WithCreated(m, n, s));
  }

  lemma OnlyAssistantsCall(m: Message, n: nat)
    requires m.Message?
    ensures m.role != Assistant ==> Created(m, n) == []
  {
  }

  // ---------------------------------------------------------------- what the list says

  predicate SourceOk(messages: seq<Message>, n: nat, m: int, source: Source, call: Call) {
    && source.index < n <= |messages| && messages[source.index].Message?
    && (source.Observed? ==> source.index < m)
    && var maker := messages[source.index];
       match source
       case Made(index, k) => k < |Created(maker, index)| && Grown(Created(maker, index)[k], call)
       case Observed(index) =>
         maker.observed != NOTHING && Created(maker, index) == [] && call == PutInFor(maker, index)
  }

  // The message at r answers the call: it is a tool result, and comes later than the call.
  predicate AnsweredBy(messages: seq<Message>, source: Source, call: Call, r: int) {
    && 0 <= r < |messages| && IsResult(messages[r]) && messages[r].id == call.result
    && (if source.Made? then source.index < r else source.index == r)
  }

  ghost predicate SourcesOk(messages: seq<Message>, n: nat, m: int, calls: seq<Call>, sources: seq<Source>) {
    && |sources| == |calls| && n <= |messages|
    && (forall c | 0 <= c < |calls| :: SourceOk(messages, n, m, sources[c], calls[c]))
    && (forall c, d | 0 <= c < d < |calls| :: sources[c] != sources[d])
  }

  ghost predicate AnswersOk(messages: seq<Message>, n: int, calls: seq<Call>, sources: seq<Source>, answers: seq<int>)
    requires |sources| == |calls|
  {
    && |answers| == |calls|
    && (forall c | 0 <= c < |calls| ::
          if calls[c].result == "" then answers[c] == -1
          else answers[c] < n && AnsweredBy(messages, sources[c], calls[c], answers[c]))
    && (forall c, d | 0 <= c < d < |calls| && answers[c] != -1 :: answers[c] != answers[d])
  }

  ghost predicate AllMade(messages: seq<Message>, n: int, sources: seq<Source>) {
    forall i, k | 0 <= i < n && i < |messages| && messages[i].Message? && 0 <= k < |Created(messages[i], i)| ::
      Made(i, k) in sources
  }

  ghost predicate AllHeard(messages: seq<Message>, n: int, answers: seq<int>) {
    forall r | 0 <= r < n && r < |messages| && IsResult(messages[r]) :: r in answers
  }

  // The calls of the first n messages are in, and the observations of the first m.
  ghost predicate Joined(messages: seq<Message>, n: nat, m: nat, s: State) {
    && SourcesOk(messages, n, m, s.calls, s.sources) && AnswersOk(messages, m, s.calls, s.sources, s.answers)
    && AllMade(messages, n, s.sources) && AllHeard(messages, m, s.answers)
  }

  // Only calls of messages wait, each once and without a result.
  ghost predicate Waiting(s: State)
    requires s.Ready()
  {
    && (forall p | 0 <= p < |s.pending| :: s.sources[s.pending[p]].Made? && s.calls[s.pending[p]].result == "")
    && (forall p, q | 0 <= p < q < |s.pending| :: s.pending[p] != s.pending[q])
  }

  ghost predicate Sound(messages: seq<Message>, n: nat, m: nat, s: State) {
    s.Ready() && Joined(messages, n, m, s) && Waiting(s)
  }

  // ---------------------------------------------------------------- every step keeps it

  lemma Parts(messages: seq<Message>, n: nat, m: nat, s: State)
    requires Sound(messages, n, m, s)
    ensures SourcesOk(messages, n, m, s.calls, s.sources) && AnswersOk(messages, m, s.calls, s.sources, s.answers)
    ensures AllMade(messages, n, s.sources) && AllHeard(messages, m, s.answers)
    ensures forall c | 0 <= c < |s.calls| && s.calls[c].result == "" :: s.answers[c] == -1
    ensures forall c | 0 <= c < |s.calls| :: s.answers[c] < m
  {
  }

  lemma Whole(messages: seq<Message>, n: nat, m: nat, s: State)
    requires s.Ready() && Waiting(s)
    requires SourcesOk(messages, n, m, s.calls, s.sources) && AnswersOk(messages, m, s.calls, s.sources, s.answers)
    requires AllMade(messages, n, s.sources) && AllHeard(messages, m, s.answers)
    ensures Sound(messages, n, m, s)
  {
  }

  lemma StepJoins(messages: seq<Message>, n: nat, s: State)
    requires n < |messages| && Sound(messages, n, n, s)
    ensures Sound(messages, n + 1, n + 1, Step(messages[n], n, s))
    ensures AllGrown(s.calls, Step(messages[n], n, s).calls)
  {
    hide Joined, Created, AllGrown, WithCreated, Attached, Learned, Grown;
    var m := messages[n];
    if m.NotAMessage? {
      NoMessageJoins(messages, n, s);
    } else {
      CreatedJoins(messages, n, s);
      var t := WithCreated(m, n, s);
      if m.observed == NOTHING {
        NothingHeard(messages, n, t);
      } else if Created(m, n) != [] {
        OnlyAssistantsCall(m, n);
        CreatedAreMade(m, n, s);
        LearnedJoins(messages, n, t, |s.calls|);
        GrownFollows(s.calls, t.calls, Learned(t.calls, |s.calls|, m.observed));
      } else {
        AttachedJoins(messages, n, t);
        GrownFollows(s.calls, t.calls, Attached(m, n, t).calls);
      }
    }
  }

  lemma CreatedAreMade(m: Message, n: nat, s: State)
    requires m.Message? && s.Ready()
    ensures forall c | |s.calls| <= c < |WithCreated(m, n, s).sources| :: WithCreated(m, n, s).sources[c].Made?
  {
  }

  lemma GrownFollows(a: seq<Call>, b: seq<Call>, c: seq<Call>)
    requires AllGrown(a, b) && AllGrown(b, c)
    ensures AllGrown(a, c)
  {
  }

  lemma NoMessageJoins(messages: seq<Message>, n: nat, s: State)
    requires n < |messages| && messages[n].NotAMessage? && Sound(messages, n, n, s)
    ensures Sound(messages, n + 1, n + 1, s) && AllGrown(s.calls, s.calls)
  {
    hide Created, AnsweredBy;
  }

  lemma NothingHeard(messages: seq<Message>, n: nat, s: State)
    requires n < |messages| && !IsResult(messages[n]) && Sound(messages, n + 1, n, s)
    ensures Sound(messages, n + 1, n + 1, s)
  {
    hide Created, AnsweredBy;
  }

  // ---------------------------------------------------------------- the calls of a message come in

  lemma CreatedJoins(messages: seq<Message>, n: nat, s: State)
    requires n < |messages| && messages[n].Message? && Sound(messages, n, n, s)
    ensures Sound(messages, n + 1, n, WithCreated(messages[n], n, s))
    ensures AllGrown(s.calls, WithCreated(messages[n], n, s).calls)
  {
    hide Created, AnsweredBy, SourcesOk, AnswersOk, AllHeard, AllMade, Waiting, WithCreated, AllGrown;
    var t := WithCreated(messages[n], n, s);
    CreatedShape(messages[n], n, s);
    CreatedSources(messages, n, s, t.calls, t.sources);
    CreatedAnswers(messages, n, s, t.calls, t.sources, t.answers);
    CreatedMade(messages, n, s.sources, t.sources, |s.calls|);
    CreatedWait(s, t, |Created(messages[n], n)|);
    OnlyLonger(s.calls, t.calls);
  }

  lemma CreatedShape(m: Message, n: nat, s: State)
    requires m.Message? && s.Ready()
    ensures var t, size := WithCreated(m, n, s), |s.calls|;
            && t.calls == s.calls + Created(m, n) && t.calls[..size] == s.calls
            && t.sources[..size] == s.sources && t.answers[..size] == s.answers
            && (forall c | size <= c < |t.calls| ::
                  t.sources[c] == Made(n, c - size) && t.answers[c] == -1 && t.calls[c].result == "")
            && t.pending == s.pending + From(size, |Created(m, n)|)
  {
    hide Created, Places, From;
    CreatedIsPlain(m, n);
  }

  lemma OnlyLonger(before: seq<Call>, after: seq<Call>)
    requires |before| <= |after| && after[..|before|] == before
    ensures AllGrown(before, after)
  {
    assert forall c | 0 <= c < |before| :: after[c] == before[c];
  }

  lemma CreatedMade(messages: seq<Message>, n: nat, before: seq<Source>, after: seq<Source>, size: nat)
    requires n < |messages| && messages[n].Message? && AllMade(messages, n, before) && |before| == size
    requires |after| == size + |Created(messages[n], n)| && after[..size] == before
    requires forall c | size <= c < |after| :: after[c] == Made(n, c - size)
    ensures AllMade(messages, n + 1, after)
  {
    hide Created;
    forall i, k | 0 <= i < n + 1 && messages[i].Message? && 0 <= k < |Created(messages[i], i)|
      ensures Made(i, k) in after
    {
      if i < n {
        assert Made(i, k) in before;
        assert forall source | source in before :: source in after;
      } else {
        assert after[size + k] == Made(n, k);
      }
    }
  }

  lemma CreatedWait(s: State, t: State, made: nat)
    requires s.Ready() && t.Ready() && Waiting(s)
    requires |t.calls| == |s.calls| + made && t.calls[..|s.calls|] == s.calls
    requires t.sources[..|s.calls|] == s.sources
    requires t.pending == s.pending + From(|s.calls|, made)
    requires forall c | |s.calls| <= c < |t.calls| :: t.sources[c].Made? && t.calls[c].result == ""
    ensures Waiting(t)
  {
  }

  lemma CreatedSources(messages: seq<Message>, n: nat, s: State, calls: seq<Call>, sources: seq<Source>)
    requires n < |messages| && messages[n].Message? && SourcesOk(messages, n, n, s.calls, s.sources)
    requires calls == s.calls + Created(messages[n], n) && |sources| == |calls| && sources[..|s.calls|] == s.sources
    requires forall c | |s.calls| <= c < |calls| :: sources[c] == Made(n, c - |s.calls|)
    ensures SourcesOk(messages, n + 1, n, calls, sources)
  {
    hide Created;
    assert forall c | 0 <= c < |s.calls| :: sources[c] == s.sources[c] && calls[c] == s.calls[c];
  }

  lemma CreatedAnswers(messages: seq<Message>, n: nat, s: State, calls: seq<Call>, sources: seq<Source>,
                       answers: seq<int>)
    requires s.Ready()
    requires AnswersOk(messages, n, s.calls, s.sources, s.answers) && AllHeard(messages, n, s.answers)
    requires |answers| == |sources| == |calls| >= |s.calls|
    requires calls[..|s.calls|] == s.calls && sources[..|s.calls|] == s.sources && answers[..|s.calls|] == s.answers
    requires forall c | |s.calls| <= c < |calls| :: calls[c].result == "" && answers[c] == -1
    ensures AnswersOk(messages, n, calls, sources, answers) && AllHeard(messages, n, answers)
  {
    hide AnsweredBy;
    assert forall c | 0 <= c < |s.calls| ::
        answers[c] == s.answers[c] && calls[c] == s.calls[c] && sources[c] == s.sources[c];
    assert forall r | r in s.answers :: r in answers;
  }

  lemma CreatedIsPlain(m: Message, index: nat)
    requires m.Message?
    ensures forall k | 0 <= k < |Created(m, index)| :: Created(m, index)[k].result == ""
  {
    CreatedUpToIsPlain(m, index, |m.toolCalls|);
  }

  lemma {:induction false} CreatedUpToIsPlain(m: Message, index: nat, k: nat)
    requires m.Message? && k <= |m.toolCalls|
    ensures forall i | 0 <= i < |CreatedUpTo(m, index, k)| :: CreatedUpTo(m, index, k)[i].result == ""
  {
    if k > 0 {
      CreatedUpToIsPlain(m, index, k - 1);
    }
  }

  // ---------------------------------------------------------------- an observation about own calls

  lemma LearnedJoins(messages: seq<Message>, n: nat, s: State, from: nat)
    requires n < |messages| && !IsResult(messages[n]) && messages[n].Message? && Sound(messages, n + 1, n, s)
    requires forall c | from <= c < |s.calls| :: s.sources[c].Made?
    ensures Sound(messages, n + 1, n + 1, s.(calls := Learned(s.calls, from, messages[n].observed)))
    ensures AllGrown(s.calls, Learned(s.calls, from, messages[n].observed))
  {
    hide Created, AllMade, AllHeard, Merged, Compatible, AnsweredBy, Joined, Waiting;
    NothingHeard(messages, n, s);
    Parts(messages, n + 1, n + 1, s);
    var calls := Learned(s.calls, from, messages[n].observed);
    forall c | 0 <= c < |s.calls|
      ensures Grown(s.calls[c], calls[c]) && calls[c].result == s.calls[c].result
      ensures s.sources[c].Observed? ==> calls[c] == s.calls[c]
    {
      MergedGrows(s.calls[c], messages[n].observed);
    }
    SameAnswers(messages, n + 1, s, calls);
    Whole(messages, n + 1, n + 1, s.(calls := calls));
  }

  lemma SameAnswers(messages: seq<Message>, n: nat, s: State, calls: seq<Call>)
    requires Sound(messages, n, n, s) && |calls| == |s.calls|
    requires forall c | 0 <= c < |calls| :: calls[c].result == s.calls[c].result
    ensures AnswersOk(messages, n, calls, s.sources, s.answers) && s.(calls := calls).Ready()
    ensures Waiting(s.(calls := calls))
  {
    hide SourcesOk, AllMade, AllHeard, IsResult;
  }

  lemma MergedGrows(call: Call, observed: Identity)
    ensures Grown(call, call.(identity := Merged(call.identity, observed)))
  {
  }

  // ---------------------------------------------------------------- an observation about another call

  lemma AttachedJoins(messages: seq<Message>, n: nat, s: State)
    requires n < |messages| && messages[n].Message? && messages[n].observed != NOTHING
    requires Created(messages[n], n) == [] && Sound(messages, n + 1, n, s)
    ensures Sound(messages, n + 1, n + 1, Attached(messages[n], n, s))
    ensures AllGrown(s.calls, Attached(messages[n], n, s).calls)
  {
    hide Joined, Created, Waiting, IsChoice, AllGrown, PutIn, Answered;
    var p := Choice(s.calls, s.pending, messages[n]);
    ChoiceIsAPlace(s.calls, s.pending, messages[n]);
    if p == -1 {
      PutInJoins(messages, n, s);
    } else {
      AnswerJoins(messages, n, s, p);
    }
  }

  lemma ChoiceIsAPlace(calls: seq<Call>, pending: seq<nat>, m: Message)
    requires m.Message? && Places(calls, pending)
    ensures -1 <= Choice(calls, pending, m) < |pending|
  {
  }

  lemma PutInJoins(messages: seq<Message>, n: nat, s: State)
    requires n < |messages| && messages[n].Message? && messages[n].observed != NOTHING
    requires Created(messages[n], n) == [] && Sound(messages, n + 1, n, s)
    ensures Sound(messages, n + 1, n + 1, PutIn(messages[n], n, s))
    ensures AllGrown(s.calls, PutIn(messages[n], n, s).calls)
  {
    hide Joined, Created, PutInFor, AllMade, AllHeard, AnswersOk, SourcesOk, Waiting, IsResult, AllGrown;
    Parts(messages, n + 1, n, s);
    var t := PutIn(messages[n], n, s);
    PutInHeard(messages, n, s.sources, s.answers);
    PutInSource(messages, n, s.calls, s.sources, PutInFor(messages[n], n));
    PutInAnswer(messages, n, s.calls, s.sources, s.answers, PutInFor(messages[n], n));
    PutInWaits(messages[n], n, s);
    OnlyLonger(s.calls, t.calls);
    Whole(messages, n + 1, n + 1, t);
  }

  lemma PutInHeard(messages: seq<Message>, n: nat, sources: seq<Source>, answers: seq<int>)
    requires n < |messages| && AllMade(messages, n + 1, sources) && AllHeard(messages, n, answers)
    ensures AllMade(messages, n + 1, sources + [Observed(n)])
    ensures AllHeard(messages, n + 1, answers + [if IsResult(messages[n]) then n else -1])
  {
    hide Created;
    assert forall source | source in sources :: source in sources + [Observed(n)];
    var more := answers + [if IsResult(messages[n]) then n else -1];
    assert forall r | r in answers :: r in more;
    assert IsResult(messages[n]) ==> more[|answers|] == n;
  }

  lemma PutInSource(messages: seq<Message>, n: nat, calls: seq<Call>, sources: seq<Source>, call: Call)
    requires n < |messages| && messages[n].Message? && messages[n].observed != NOTHING
    requires Created(messages[n], n) == [] && call == PutInFor(messages[n], n)
    requires SourcesOk(messages, n + 1, n, calls, sources)
    ensures SourcesOk(messages, n + 1, n + 1, calls + [call], sources + [Observed(n)])
  {
    hide Created, PutInFor;
  }

  lemma PutInAnswer(messages: seq<Message>, n: nat, calls: seq<Call>, sources: seq<Source>, answers: seq<int>,
                    call: Call)
    requires n < |messages| && messages[n].Message? && messages[n].observed != NOTHING
    requires |sources| == |calls| && AnswersOk(messages, n, calls, sources, answers)
    requires call == PutInFor(messages[n], n)
    ensures AnswersOk(messages, n + 1, calls + [call], sources + [Observed(n)],
                      answers + [if IsResult(messages[n]) then n else -1])
  {
    assert forall c | 0 <= c < |calls| :: answers[c] < n;
  }

  lemma PutInWaits(m: Message, n: nat, s: State)
    requires m.Message? && s.Ready() && Waiting(s)
    ensures Waiting(PutIn(m, n, s))
  {
    hide PutInFor, IsResult, Forgotten;
    var t := PutIn(m, n, s);
    var all := t.(pending := s.pending);
    SameStillWait(s, all);
    if m.role == Tool {
      FewerWait(all, |s.calls|);
    }
  }

  // A longer list, with the waiting calls as they were.
  lemma SameStillWait(s: State, t: State)
    requires s.Ready() && t.Ready() && Waiting(s) && t.pending == s.pending
    requires forall q | 0 <= q < |s.pending| ::
               t.calls[s.pending[q]].result == "" && t.sources[s.pending[q]] == s.sources[s.pending[q]]
    ensures Waiting(t)
  {
  }

  // One waiting call less, whichever.
  lemma FewerWait(s: State, c: nat)
    requires s.Ready() && Waiting(s) && c < |s.calls|
    ensures Waiting(s.(pending := Forgotten(s.calls, s.pending, c)))
  {
    hide IsFirstEqual;
    FirstEqualIsAPlace(s.calls, s.pending, c);
  }

  lemma FirstEqualIsAPlace(calls: seq<Call>, pending: seq<nat>, c: nat)
    requires c < |calls| && Places(calls, pending)
    ensures -1 <= FirstEqual(calls, pending, c) < |pending|
  {
  }

  // The chosen call takes the observation.
  lemma AnswerJoins(messages: seq<Message>, n: nat, s: State, p: nat)
    requires n < |messages| && messages[n].Message? && messages[n].observed != NOTHING
    requires Created(messages[n], n) == [] && Sound(messages, n + 1, n, s)
    requires p < |s.pending|
    ensures Sound(messages, n + 1, n + 1, Answered(messages[n], n, s, s.pending[p]))
    ensures AllGrown(s.calls, Answered(messages[n], n, s, s.pending[p]).calls)
  {
    hide Joined, Created, AnsweredBy, SourceOk, Merged, AllMade, AllHeard, AnswersOk, SourcesOk, Answered;
    Parts(messages, n + 1, n, s);
    var m, c := messages[n], s.pending[p];
    var t := Answered(m, n, s, c);
    AnsweredShape(m, n, s, c);
    MergedGrows(s.calls[c], m.observed);
    MadeBefore(messages, n, s, c);
    SourcesStay(messages, n, s.calls, s.sources, c, Informed(s.calls[c], m));
    AnswersStay(messages, n, s, c, Informed(s.calls[c], m), t.answers);
    AnsweredWaits(m, n, s, p);
    Whole(messages, n + 1, n + 1, t);
  }

  lemma AnsweredShape(m: Message, n: nat, s: State, c: nat)
    requires m.Message? && s.Ready() && c < |s.calls|
    ensures var t := Answered(m, n, s, c);
            && t.calls == s.calls[c := Informed(s.calls[c], m)] && t.sources == s.sources
            && t.answers == if IsResult(m) then s.answers[c := n] else s.answers
  {
  }

  lemma MadeBefore(messages: seq<Message>, n: nat, s: State, c: nat)
    requires n < |messages| && messages[n].Message? && Created(messages[n], n) == []
    requires Sound(messages, n + 1, n, s) && c < |s.calls| && s.sources[c].Made?
    ensures s.sources[c].index < n
  {
    hide Created, AnsweredBy, AnswersOk, AllMade, AllHeard, Waiting;
    assert SourceOk(messages, n + 1, n, s.sources[c], s.calls[c]);
  }

  lemma SourcesStay(messages: seq<Message>, n: nat, calls: seq<Call>, sources: seq<Source>, c: nat, call: Call)
    requires n < |messages| && SourcesOk(messages, n + 1, n, calls, sources)
    requires c < |calls| && sources[c].Made? && Grown(calls[c], call)
    ensures SourcesOk(messages, n + 1, n + 1, calls[c := call], sources)
  {
    hide Created, PutInFor;
  }

  lemma AnswersStay(messages: seq<Message>, n: nat, s: State, c: nat, call: Call, answers: seq<int>)
    requires n < |messages| && messages[n].Message? && messages[n].observed != NOTHING
    requires s.Ready() && AnswersOk(messages, n, s.calls, s.sources, s.answers) && AllHeard(messages, n, s.answers)
    requires c < |s.calls| && s.sources[c].Made? && s.sources[c].index < n && s.calls[c].result == ""
    requires call.result == if messages[n].role == Tool then messages[n].id else ""
    requires answers == if IsResult(messages[n]) then s.answers[c := n] else s.answers
    ensures AnswersOk(messages, n + 1, s.calls[c := call], s.sources, answers) && AllHeard(messages, n + 1, answers)
  {
    assert forall d | 0 <= d < |s.calls| :: s.answers[d] < n;
    forall r | r in s.answers && r != -1
      ensures r in answers
    {
      var d :| 0 <= d < |s.answers| && s.answers[d] == r;
      assert answers[d] == r;
    }
    assert IsResult(messages[n]) ==> answers[c] == n;
  }

  // Removing the call, or one that equals it, leaves only calls without a result.
  lemma AnsweredWaits(m: Message, n: nat, s: State, p: nat)
    requires m.Message? && s.Ready() && Waiting(s) && p < |s.pending|
    ensures Waiting(Answered(m, n, s, s.pending[p]))
  {
    hide Merged, IsResult, IsFirstEqual;
    var c := s.pending[p];
    var t := Answered(m, n, s, c);
    if m.role == Tool && m.id != "" {
      AnsweredIsRemoved(t.calls, s.pending, p);
    } else {
      SameStillWait(s, t.(pending := s.pending));
      if m.role == Tool {
        FewerWait(t.(pending := s.pending), c);
      }
    }
  }

  lemma AnsweredIsRemoved(calls: seq<Call>, pending: seq<nat>, p: nat)
    requires Places(calls, pending) && p < |pending| && calls[pending[p]].result != ""
    requires forall q | 0 <= q < |pending| && q != p :: calls[pending[q]].result == ""
    ensures Forgotten(calls, pending, pending[p]) == pending[..p] + pending[p + 1..]
  {
    hide FirstEqual;
    var q := FirstEqual(calls, pending, pending[p]);
    assert q != -1 && calls[pending[q]] == calls[pending[p]];
  }

  // ---------------------------------------------------------------- what the calls say at the end

  // After any number of messages every call and every result of theirs is accounted for.
  lemma {:induction false} RunIsJoined(messages: seq<Message>, n: nat)
    requires n <= |messages|
    ensures Sound(messages, n, n, Run(messages, n))
  {
    hide Step, Sound;
    if n == 0 {
      EmptyIsJoined(messages);
    } else {
      RunIsJoined(messages, n - 1);
      StepJoins(messages, n - 1, Run(messages, n - 1));
    }
  }

  lemma EmptyIsJoined(messages: seq<Message>)
    ensures Sound(messages, 0, 0, State([], [], [], []))
  {
  }

  // No call disappears, and no field once set is ever overwritten.
  lemma {:induction false} NothingIsOverwritten(messages: seq<Message>, i: nat, j: nat)
    requires i <= j <= |messages|
    ensures AllGrown(Run(messages, i).calls, Run(messages, j).calls)
  {
    hide AllGrown, Step, Sound;
    if i == j {
      Itself(Run(messages, i).calls);
    } else {
      NothingIsOverwritten(messages, i, j - 1);
      RunIsJoined(messages, j - 1);
      StepJoins(messages, j - 1, Run(messages, j - 1));
      GrownFollows(Run(messages, i).calls, Run(messages, j - 1).calls, Run(messages, j).calls);
    }
  }

  lemma Itself(calls: seq<Call>)
    ensures AllGrown(calls, calls)
  {
  }

  // Messages without an id may occur any number of times.
  predicate DistinctIds(messages: seq<Message>) {
    forall i, j | 0 <= i < j < |messages| && messages[i].Message? && messages[j].Message? && messages[i].id != "" ::
      messages[i].id != messages[j].id
  }

  // No result is attached to two calls.
  lemma ResultsDiffer(messages: seq<Message>)
    requires DistinctIds(messages)
    ensures var calls := Run(messages, |messages|).calls;
            forall c, d | 0 <= c < d < |calls| && calls[c].result != "" :: calls[c].result != calls[d].result
  {
    hide Created, AllMade, AllHeard, SourcesOk, Waiting;
    var s := Run(messages, |messages|);
    RunIsJoined(messages, |messages|);
    forall c, d | 0 <= c < d < |s.calls| && s.calls[c].result != ""
      ensures s.calls[c].result != s.calls[d].result
    {
      if s.calls[d].result != "" {
        assert s.answers[c] != s.answers[d];
      }
    }
  }

  // ---------------------------------------------------------------- where an observation goes

  // The message says something about a tool and makes no call of its own.
  predicate Speaks(messages: seq<Message>, i: int) {
    && 0 <= i < |messages| && messages[i].Message? && messages[i].observed != NOTHING
    && Created(messages[i], i) == []
  }

  // The place of the call that takes the observation: the one chosen among those waiting
  // when the message comes, or a new one.
  function Goes(messages: seq<Message>, i: nat): nat
    requires Speaks(messages, i)
  {
    var s := Run(messages, i);
    var p := Choice(s.calls, s.pending, messages[i]);
    if p == -1 then |s.calls| else s.pending[p]
  }

  // The observation is the origin of that call exactly when none was found for it, and a
  // result answers that call and no other, whatever comes later.
  lemma ObservationGoes(messages: seq<Message>, i: nat)
    requires Speaks(messages, i)
    ensures var s, end := Run(messages, i), Run(messages, |messages|);
            && |s.calls| <= |end.calls| == |end.sources| == |end.answers| && Goes(messages, i) < |end.calls|
            && (Observed(i) in end.sources <==> Choice(s.calls, s.pending, messages[i]) == -1)
            && (Observed(i) in end.sources ==> end.sources[Goes(messages, i)] == Observed(i))
            && (forall c | 0 <= c < |end.calls| ::
                  end.answers[c] == i <==> IsResult(messages[i]) && c == Goes(messages, i))
  {
    hide Created, IsChoice, IsResult, Sound, Step;
    var s, t, end := Run(messages, i), Run(messages, i + 1), Run(messages, |messages|);
    RunIsJoined(messages, i);
    RunIsJoined(messages, |messages|);
    SpokenStep(messages, i);
    RunKeeps(messages, i + 1, |messages|);
    AnswersAreResults(messages, |messages|, end);
    if Choice(s.calls, s.pending, messages[i]) == -1 {
      assert end.sources[Goes(messages, i)] == t.sources[Goes(messages, i)];
    }
    if Observed(i) in end.sources {
      var c :| 0 <= c < |end.sources| && end.sources[c] == Observed(i);
      assert c < |t.sources|;
    }
  }

  lemma SpokenStep(messages: seq<Message>, i: nat)
    requires Speaks(messages, i) && Sound(messages, i, i, Run(messages, i))
    ensures var s, t := Run(messages, i), Run(messages, i + 1);
            && |s.calls| <= |t.calls| && Goes(messages, i) < |t.calls|
            && (forall c | 0 <= c < |t.sources| :: t.sources[c] == Observed(i) <==>
                  Choice(s.calls, s.pending, messages[i]) == -1 && c == Goes(messages, i))
            && (IsResult(messages[i]) ==> t.answers[Goes(messages, i)] == i)
  {
    hide IsChoice, IsResult, Forgotten, PutInFor, Informed, AnswersOk, AllMade, AllHeard;
    var s := Run(messages, i);
    assert WithCreated(messages[i], i, s) == s;
    ChoiceIsAPlace(s.calls, s.pending, messages[i]);
    assert forall c | 0 <= c < |s.sources| :: s.sources[c].index < i;
  }

  // Each result answers one call.
  lemma AnswersAreResults(messages: seq<Message>, n: nat, s: State)
    requires Sound(messages, n, n, s)
    ensures forall c | 0 <= c < |s.answers| && s.answers[c] != -1 ::
              0 <= s.answers[c] < |messages| && IsResult(messages[s.answers[c]])
    ensures forall c, d | 0 <= c < d < |s.answers| && s.answers[c] != -1 :: s.answers[c] != s.answers[d]
  {
    hide Created, AllMade, AllHeard, SourcesOk, Waiting;
  }

  // Later messages change neither where a call comes from nor what answered it.
  lemma {:induction false} RunKeeps(messages: seq<Message>, i: nat, j: nat)
    requires i <= j <= |messages|
    ensures var s, t := Run(messages, i), Run(messages, j);
            && s.sources <= t.sources && (forall c | |s.sources| <= c < |t.sources| :: t.sources[c].index >= i)
            && (forall c | 0 <= c < |s.answers| && s.answers[c] != -1 :: t.answers[c] == s.answers[c])
  {
    hide Step, Sound;
    if i < j {
      RunKeeps(messages, i, j - 1);
      RunIsJoined(messages, j - 1);
      StepKeeps(messages, j - 1, Run(messages, j - 1));
    }
  }

  lemma StepKeeps(messages: seq<Message>, n: nat, s: State)
    requires n < |messages| && Sound(messages, n, n, s)
    ensures var t := Step(messages[n], n, s);
            && s.sources <= t.sources && (forall c | |s.sources| <= c < |t.sources| :: t.sources[c].index == n)
            && (forall c | 0 <= c < |s.answers| && s.answers[c] != -1 :: t.answers[c] == s.answers[c])
  {
    hide Created, Joined, IsChoice, Forgotten, PutInFor, Informed, IsResult, Waiting;
    Parts(messages, n, n, s);
    if messages[n].Message? {
      CreatedJoins(messages, n, s);
      var t := WithCreated(messages[n], n, s);
      AttachedKeeps(messages, n, t);
    }
  }

  lemma AttachedKeeps(messages: seq<Message>, n: nat, s: State)
    requires n < |messages| && messages[n].Message? && Sound(messages, n + 1, n, s)
    ensures var t := Attached(messages[n], n, s);
            && s.sources <= t.sources && (forall c | |s.sources| <= c < |t.sources| :: t.sources[c].index == n)
            && (forall c | 0 <= c < |s.answers| && s.answers[c] != -1 :: t.answers[c] == s.answers[c])
  {
    hide Created, Joined, IsChoice, Forgotten, PutInFor, Informed, IsResult;
    Parts(messages, n + 1, n, s);
    ChoiceIsAPlace(s.calls, s.pending, messages[n]);
  }

  // ---------------------------------------------------------------- infrastructure_incidents

  datatype Incident = Incident(appId: string, tool: string, call: string, message: string)

  predicate IsIncident(call: Call) {
    call.message != "" && call.identity.appId != "" && call.identity.canonical != "" && call.result == ""
  }

  function IncidentOf(call: Call): Incident {
    Incident(call.identity.appId, call.identity.canonical, Or(call.id, call.message), call.message)
  }

  function IncidentsOf(calls: seq<Call>): seq<Incident> {
    if calls == [] then []
    else
      IncidentsOf(calls[..|calls| - 1]) +
      if IsIncident(calls[|calls| - 1]) then [IncidentOf(calls[|calls| - 1])] else []
  }

  method InfrastructureIncidents(calls: seq<Call>) returns (incidents: seq<Incident>)
    ensures incidents == IncidentsOf(calls)
  {
    incidents := [];
    var c := 0;
    while c < |calls|
      invariant 0 <= c <= |calls|
      invariant incidents == IncidentsOf(calls[..c])
    {
      assert calls[..c + 1][..c] == calls[..c];
      var call := calls[c];
      if !(call.message == "" || call.identity.appId == "" || call.identity.canonical == "" || call.result != "") {
        incidents := incidents + [IncidentOf(call)];
      }
      c := c + 1;
    }
    assert calls[..c] == calls;
  }

  // The calls that count as incidents, by place.
  function Unanswered(calls: seq<Call>): seq<nat> {
    if calls == [] then []
    else Unanswered(calls[..|calls| - 1]) + if IsIncident(calls[|calls| - 1]) then [|calls| - 1] else []
  }

  // One incident for each such call, in order, and for nothing else.
  lemma {:induction false} IncidentsAreUnanswered(calls: seq<Call>)
    ensures |IncidentsOf(calls)| == |Unanswered(calls)|
    ensures forall k | 0 <= k < |Unanswered(calls)| :: Unanswered(calls)[k] < |calls|
              && IsIncident(calls[Unanswered(calls)[k]])
              && IncidentsOf(calls)[k] == IncidentOf(calls[Unanswered(calls)[k]])
    ensures forall c | 0 <= c < |calls| && IsIncident(calls[c]) :: c in Unanswered(calls)
    ensures forall k, l | 0 <= k < l < |Unanswered(calls)| :: Unanswered(calls)[k] < Unanswered(calls)[l]
  {
    hide IsIncident, IncidentOf;
    if calls != [] {
      IncidentsAreUnanswered(calls[..|calls| - 1]);
    }
  }

  // A call of a message is a call of an assistant message, and no result answers it if it is
  // an incident.
  lemma IncidentsAreCalls(messages: seq<Message>, c: nat)
    requires c < |Run(messages, |messages|).calls|
    ensures var s := Run(messages, |messages|);
            s.sources[c].Made? ==>
              && s.sources[c].index < |messages| && messages[s.sources[c].index].Message?
              && messages[s.sources[c].index].role == Assistant
              && (IsIncident(s.calls[c]) ==> s.answers[c] == -1)
  {
    hide AllMade, AllHeard, Waiting, AnsweredBy, Run, CreatedUpTo;
    RunIsJoined(messages, |messages|);
    var s := Run(messages, |messages|);
    assert SourceOk(messages, |messages|, |messages|, s.sources[c], s.calls[c]);
  }

  // An observation outside of results that resolves to a tool and names a call.
  predicate Echo(messages: seq<Message>, i: int) {
    && Speaks(messages, i) && !IsResult(messages[i])
    && messages[i].link != "" && messages[i].observed.appId != "" && messages[i].observed.canonical != ""
  }

  // No call waiting when the message comes can take what it says.
  predicate Unaccounted(messages: seq<Message>, i: nat)
    requires i < |messages| && messages[i].Message?
  {
    var s := Run(messages, i);
    forall q | 0 <= q < |s.pending| :: !Compatible(s.calls[s.pending[q]], messages[i].observed)
  }

  lemma ChoosesNone(messages: seq<Message>, i: nat)
    requires i < |messages| && messages[i].Message?
    ensures var s := Run(messages, i);
            Choice(s.calls, s.pending, messages[i]) == -1 <==> Unaccounted(messages, i)
  {
    hide Run, Compatible, Joined;
    RunIsJoined(messages, i);
  }

  // Some incident is not a call of an assistant exactly when an echo comes while no call that
  // is waiting can take it.
  lemma IncidentsOutsideCalls(messages: seq<Message>)
    ensures var s := Run(messages, |messages|);
            (exists c :: 0 <= c < |s.calls| && IsIncident(s.calls[c]) && s.sources[c].Observed?)
            <==> (exists i: nat :: Echo(messages, i) && Unaccounted(messages, i))
  {
    hide Run, Unaccounted, Joined, IsResult;
    var s := Run(messages, |messages|);
    RunIsJoined(messages, |messages|);
    forall c | 0 <= c < |s.calls| && IsIncident(s.calls[c]) && s.sources[c].Observed?
      ensures exists i: nat :: Echo(messages, i) && Unaccounted(messages, i)
    {
      ObservedIsAnEcho(messages, c);
    }
    forall i: nat | Echo(messages, i) && Unaccounted(messages, i)
      ensures exists c :: 0 <= c < |s.calls| && IsIncident(s.calls[c]) && s.sources[c].Observed?
    {
      EchoIsAnIncident(messages, i);
    }
  }

  lemma ObservedIsAnEcho(messages: seq<Message>, c: nat)
    requires c < |Run(messages, |messages|).calls|
    requires var s := Run(messages, |messages|); IsIncident(s.calls[c]) && s.sources[c].Observed?
    ensures var i := Run(messages, |messages|).sources[c].index;
            i < |messages| && messages[i].Message? && Echo(messages, i) && Unaccounted(messages, i)
  {
    hide Run, Unaccounted, Created, AnswersOk, AllMade, AllHeard, Waiting;
    RunIsJoined(messages, |messages|);
    var s := Run(messages, |messages|);
    assert SourceOk(messages, |messages|, |messages|, s.sources[c], s.calls[c]);
    ObservationGoes(messages, s.sources[c].index);
    ChoosesNone(messages, s.sources[c].index);
  }

  lemma EchoIsAnIncident(messages: seq<Message>, i: nat)
    requires Echo(messages, i) && Unaccounted(messages, i)
    ensures var s := Run(messages, |messages|);
            Goes(messages, i) < |s.calls| && IsIncident(s.calls[Goes(messages, i)])
            && s.sources[Goes(messages, i)] == Observed(i)
  {
    hide Run, Unaccounted, Created, AnswersOk, AllMade, AllHeard, Waiting, Goes;
    RunIsJoined(messages, |messages|);
    ChoosesNone(messages, i);
    ObservationGoes(messages, i);
    var s, c := Run(messages, |messages|), Goes(messages, i);
    assert SourceOk(messages, |messages|, |messages|, s.sources[c], s.calls[c]);
  }

  // The documentation promises incidents for assistant calls only, but one echo in an empty
  // conversation is one as well.
  method EchoBecomesAnIncident() returns (incidents: seq<Incident>)
    ensures incidents == [Incident("app", "tool", "lost", "lost")]
  {
    var echo := Message(Other, "m", "", [], NOTHING, Identity("app", "tool", "App", "tool", ""), "lost");
    var calls := InvokedToolCalls([echo]);
    assert Run([echo], 0) == State([], [], [], []);
    assert calls == Step(echo, 0, State([], [], [], [])).calls == [PutInFor(echo, 0)];
    assert calls[..0] == [];
    incidents := InfrastructureIncidents(calls);
  }
}
