// The calls a conversation made, told by the fields of its messages, and what they learn.
module Invocations {
  import opened Provenance
  import Text

  // ---------------------------------------------------------------- the calls of one message

  // An entry of an assistant's tool_calls that is a call.
  predicate IsEntry(m: Message, e: int) {
    m.Message? && m.role == Assistant && 0 <= e < |m.toolCalls| && m.toolCalls[e].RawCall?
  }

  function OwnId(m: Message, index: nat): string
    requires m.Message?
  {
    if m.id != "" then m.id else "message:" + Text.Digits(index)
  }

  // An assistant's message to one recipient is a call, unless it lists calls.
  ghost predicate IsAddressed(m: Message) {
    m.Message? && m.role == Assistant && m.recipient !in {"", "all"} && forall e :: !IsEntry(m, e)
  }

  predicate Increasing(at: seq<nat>) {
    forall p, q | 0 <= p < q < |at| :: at[p] < at[q]
  }

  // The call of one entry; what the entry says is kept.
  predicate OfEntry(m: Message, index: nat, e: nat, call: Call) {
    && IsEntry(m, e)
    && call.id == (if m.toolCalls[e].id != "" then m.toolCalls[e].id else OwnId(m, index) + ":" + Text.Digits(e))
    && call.message == m.id && Says(call.identity, m.toolCalls[e].identity)
  }

  predicate OfAddress(m: Message, index: nat, call: Call) {
    m.Message? && call.id == OwnId(m, index) && call.message == m.id && Says(call.identity, m.addressed)
  }

  // Whatever the one says about a tool, the other says as well.
  predicate Says(a: Identity, b: Identity) {
    && (b.appId != "" ==> a.appId == b.appId) && (b.canonical != "" ==> a.canonical == b.canonical)
    && (b.uiName != "" ==> a.uiName == b.uiName) && (b.runtime != "" ==> a.runtime == b.runtime)
    && (b.recipient != "" ==> a.recipient == b.recipient)
  }

  // Each entry makes one call, in order.
  ghost predicate Lists(m: Message, index: nat, k: nat, calls: seq<Call>, at: seq<nat>) {
    && |at| == |calls| && Increasing(at)
    && (forall p | 0 <= p < |at| :: at[p] < k && OfEntry(m, index, at[p], calls[p]))
    && (forall e: nat | e < k && IsEntry(m, e) :: e in at)
  }

  lemma {:induction false} EntriesMakeCalls(m: Message, index: nat, k: nat) returns (at: seq<nat>)
    requires m.Message? && m.role == Assistant && k <= |m.toolCalls|
    ensures Lists(m, index, k, CreatedUpTo(m, index, k), at)
  {
    if k == 0 {
      at := [];
    } else {
      at := EntriesMakeCalls(m, index, k - 1);
      if IsEntry(m, k - 1) {
        EntryListed(m, index, k - 1, CreatedUpTo(m, index, k - 1), at, CreatedUpTo(m, index, k)[|at|]);
        at := at + [k - 1];
      }
    }
  }

  lemma EntryListed(m: Message, index: nat, k: nat, calls: seq<Call>, at: seq<nat>, call: Call)
    requires Lists(m, index, k, calls, at) && OfEntry(m, index, k, call)
    ensures Lists(m, index, k + 1, calls + [call], at + [k])
  {
    hide OfEntry;
    var at' := at + [k];
    forall e: nat | e < k + 1 && IsEntry(m, e)
      ensures e in at'
    {
      assert at'[|at|] == k;
      assert at' == at + [k];
    }
  }

  // What a message makes: a call for each entry, or one for its recipient, or none.
  lemma Makes(m: Message, index: nat) returns (at: seq<nat>)
    requires m.Message?
    ensures var calls := Created(m, index);
            && ((exists e :: IsEntry(m, e)) ==> Lists(m, index, |m.toolCalls|, calls, at))
            && (IsAddressed(m) ==> |calls| == 1 && OfAddress(m, index, calls[0]))
            && ((forall e :: !IsEntry(m, e)) && !IsAddressed(m) ==> calls == [])
  {
    at := [];
    if m.role == Assistant {
      at := EntriesMakeCalls(m, index, |m.toolCalls|);
      if at != [] {
        assert IsEntry(m, at[0]);
      }
    }
  }

  lemma MakesNone(m: Message, index: nat)
    requires m.Message?
    ensures Created(m, index) == [] <==> !IsAddressed(m) && forall e :: !IsEntry(m, e)
  {
    var at := Makes(m, index);
    if e :| IsEntry(m, e) {
      assert e in at;
    }
  }

  // ---------------------------------------------------------------- the calls of a conversation

  predicate IsMadeBy(s: State, i: nat, c: int)
    requires s.Ready()
  {
    0 <= c < |s.calls| && s.sources[c].Made? && s.sources[c].index == i
  }

  // The calls at these places, and no others, were made by message i, in this order.
  ghost predicate PlacesOf(s: State, i: nat, places: seq<nat>)
    requires s.Ready()
  {
    && Increasing(places) && (forall k | 0 <= k < |places| :: IsMadeBy(s, i, places[k]))
    && (forall c | IsMadeBy(s, i, c) :: c in places)
  }

  // The step of message i adds its calls, which keep what they say, and at most one more.
  lemma StepMakes(messages: seq<Message>, i: nat)
    requires i < |messages| && messages[i].Message?
    ensures var s, t, made := Run(messages, i), Run(messages, i + 1), Created(messages[i], i);
            && |s.calls| + |made| <= |t.calls|
            && (forall c | 0 <= c < |s.calls| :: s.sources[c].index < i)
            && (forall k | 0 <= k < |made| ::
                  t.sources[|s.calls| + k] == Made(i, k) && Grown(made[k], t.calls[|s.calls| + k]))
            && (forall c | |s.calls| + |made| <= c < |t.calls| :: t.sources[c] == Observed(i))
  {
    hide Created, Grown, Step, Sound;
    RunIsJoined(messages, i);
    SourcesAreEarlier(messages, i, Run(messages, i));
    MakesFrom(messages, i, Run(messages, i));
  }

  lemma MakesFrom(messages: seq<Message>, i: nat, s: State)
    requires s.Ready() && i < |messages| && messages[i].Message? && Sound(messages, i, i, s)
    ensures var t, made := Step(messages[i], i, s), Created(messages[i], i);
            && |s.calls| + |made| <= |t.calls|
            && (forall k | 0 <= k < |made| ::
                  t.sources[|s.calls| + k] == Made(i, k) && Grown(made[k], t.calls[|s.calls| + k]))
            && (forall c | |s.calls| + |made| <= c < |t.calls| :: t.sources[c] == Observed(i))
  {
    hide Created, Grown, Step, Sound, WithCreated, AllGrown;
    var made, t, u := Created(messages[i], i), WithCreated(messages[i], i, s), Step(messages[i], i, s);
    CreatedShape(messages[i], i, s);
    StepAdds(messages, i, s);
    EachGrown(t.calls, u.calls);
    MadeAre(s, made, t, u, i);
  }

  lemma MadeAre(s: State, made: seq<Call>, t: State, u: State, i: nat)
    requires s.Ready() && t.Ready() && u.Ready()
    requires t.calls == s.calls + made && |u.calls| >= |t.calls|
    requires u.sources == t.sources || u.sources == t.sources + [Observed(i)]
    requires forall c | |s.calls| <= c < |t.calls| :: t.sources[c] == Made(i, c - |s.calls|)
    requires forall c | 0 <= c < |t.calls| :: Grown(t.calls[c], u.calls[c])
    ensures forall k | 0 <= k < |made| ::
              u.sources[|s.calls| + k] == Made(i, k) && Grown(made[k], u.calls[|s.calls| + k])
    ensures forall c | |t.calls| <= c < |u.calls| :: u.sources[c] == Observed(i)
  {
    hide Grown;
    assert forall k | 0 <= k < |made| :: t.calls[|s.calls| + k] == made[k];
  }

  lemma StepAdds(messages: seq<Message>, i: nat, s: State)
    requires s.Ready() && i < |messages| && messages[i].Message? && Sound(messages, i, i, s)
    ensures var t, u := WithCreated(messages[i], i, s), Step(messages[i], i, s);
            AllGrown(t.calls, u.calls) && (u.sources == t.sources || u.sources == t.sources + [Observed(i)])
  {
    hide Created, Grown, Joined, Learned, Attached, AllGrown, WithCreated, Sound;
    var m, t := messages[i], WithCreated(messages[i], i, s);
    Itself(t.calls);
    CreatedJoins(messages, i, s);
    if m.observed != NOTHING {
      if Created(m, i) != [] {
        OnlyAssistantsCall(m, i);
        CreatedAreMade(m, i, s);
        LearnedJoins(messages, i, t, |s.calls|);
      } else {
        AttachedJoins(messages, i, t);
        AttachedShape(m, i, t);
      }
    }
  }

  lemma SourcesAreEarlier(messages: seq<Message>, i: nat, s: State)
    requires i <= |messages| && Sound(messages, i, i, s)
    ensures forall c | 0 <= c < |s.sources| :: s.sources[c].index < i
  {
    hide AnswersOk, AllMade, AllHeard, Waiting, Created;
    assert forall c | 0 <= c < |s.calls| :: SourceOk(messages, i, i, s.sources[c], s.calls[c]);
  }

  lemma EachGrown(a: seq<Call>, b: seq<Call>)
    requires AllGrown(a, b)
    ensures |a| <= |b| && forall c | 0 <= c < |a| :: Grown(a[c], b[c])
  {
  }

  lemma AttachedShape(m: Message, n: nat, s: State)
    requires m.Message? && s.Ready()
    ensures var t := Attached(m, n, s);
            t.sources == s.sources || t.sources == s.sources + [Observed(n)]
  {
    hide IsChoice, Forgotten, Informed;
    ChoiceIsAPlace(s.calls, s.pending, m);
  }

  lemma PlacesAre(messages: seq<Message>, i: nat) returns (places: seq<nat>)
    requires i < |messages| && messages[i].Message?
    ensures var s := Run(messages, |messages|);
            && |places| == |Created(messages[i], i)| && PlacesOf(s, i, places)
            && forall k | 0 <= k < |places| :: Grown(Created(messages[i], i)[k], s.calls[places[k]])
  {
    hide Created, Run, Grown, AllGrown;
    var before, t, s := Run(messages, i), Run(messages, i + 1), Run(messages, |messages|);
    var size, made := |before.calls|, Created(messages[i], i);
    StepMakes(messages, i);
    RunKeeps(messages, i, |messages|);
    RunKeeps(messages, i + 1, |messages|);
    NothingIsOverwritten(messages, i + 1, |messages|);
    places := seq(|made|, k requires 0 <= k < |made| => size + k);
    assert forall c | 0 <= c < |before.sources| :: s.sources[c] == before.sources[c];
    assert forall c | 0 <= c < |t.sources| :: s.sources[c] == t.sources[c];
    forall k | 0 <= k < |places|
      ensures Grown(made[k], s.calls[places[k]])
    {
      EachGrown(t.calls, s.calls);
      GrownThrough(made[k], t.calls[size + k], s.calls[size + k]);
    }
    forall c | IsMadeBy(s, i, c)
      ensures c in places
    {
      assert size <= c < size + |made|;
      assert places[c - size] == c;
    }
  }

  lemma GrownThrough(a: Call, b: Call, c: Call)
    requires Grown(a, b) && Grown(b, c)
    ensures Grown(a, c)
  {
  }

  // Each entry of an assistant message that is a call has exactly one listed call, in order;
  // an assistant message without any, to one recipient, has exactly one; any other has none.
  lemma CallsOfMessage(messages: seq<Message>, i: nat) returns (at: seq<nat>, places: seq<nat>)
    requires i < |messages|
    ensures var m, s := messages[i], Run(messages, |messages|);
            && PlacesOf(s, i, places)
            && (if exists e :: IsEntry(m, e) then
                  && |at| == |places| && Increasing(at) && (forall e: nat | IsEntry(m, e) :: e in at)
                  && forall k | 0 <= k < |places| :: OfEntry(m, i, at[k], s.calls[places[k]])
                else if IsAddressed(m) then |places| == 1 && OfAddress(m, i, s.calls[places[0]])
                else places == [])
  {
    hide Run, Created, OfEntry, OfAddress, Grown;
    at := [];
    var m, s := messages[i], Run(messages, |messages|);
    if m.NotAMessage? {
      NoMessageMakesNone(messages, i);
      places := [];
      NoPlaces(s, i);
    } else {
      places := PlacesAre(messages, i);
      at := Makes(m, i);
      var made := Created(m, i);
      assert forall k | 0 <= k < |places| :: IsMadeBy(s, i, places[k]);
      if exists e :: IsEntry(m, e) {
        assert |at| == |places|;
      }
      forall k | 0 <= k < |places|
        ensures (exists e :: IsEntry(m, e)) ==> OfEntry(m, i, at[k], s.calls[places[k]])
        ensures IsAddressed(m) ==> OfAddress(m, i, s.calls[places[k]])
      {
        if e :| IsEntry(m, e) {
          StillOf(m, i, at[k], made[k], s.calls[places[k]]);
        } else if IsAddressed(m) {
          StillOf(m, i, 0, made[k], s.calls[places[k]]);
        }
      }
    }
  }

  lemma StillOf(m: Message, i: nat, e: nat, a: Call, b: Call)
    requires Grown(a, b)
    ensures OfEntry(m, i, e, a) ==> OfEntry(m, i, e, b)
    ensures OfAddress(m, i, a) ==> OfAddress(m, i, b)
  {
  }

  lemma NoMessageMakesNone(messages: seq<Message>, i: nat)
    requires i < |messages| && messages[i].NotAMessage?
    ensures forall c :: !IsMadeBy(Run(messages, |messages|), i, c)
  {
    hide Run, Grown, Created, AnswersOk, AllMade, AllHeard, Waiting;
    RunIsJoined(messages, |messages|);
    var s := Run(messages, |messages|);
    assert forall c | 0 <= c < |s.calls| :: SourceOk(messages, |messages|, |messages|, s.sources[c], s.calls[c]);
  }

  lemma NoPlaces(s: State, i: nat)
    requires s.Ready() && forall c :: !IsMadeBy(s, i, c)
    ensures PlacesOf(s, i, [])
  {
  }

  // ---------------------------------------------------------------- what the calls learn

  // The call says nothing else about the App and its tool than the observation, and leaves
  // nothing open that the observation tells.
  predicate Agrees(mine: Identity, observed: Identity) {
    && (observed.appId != "" ==> mine.appId == observed.appId)
    && (observed.canonical != "" ==> mine.canonical == observed.canonical)
    && (observed.uiName != "" ==> mine.uiName != "") && (observed.runtime != "" ==> mine.runtime != "")
    && (observed.recipient != "" ==> mine.recipient != "")
  }

  // Where a call went to a tool of its own name, a result under another name must be of its
  // canonical tool.
  predicate Routed(made: Identity, mine: Identity, observed: Identity) {
    observed.runtime != "" && made.recipient != "" && made.recipient != "api_tool.call_tool"
    && '.' in made.recipient && LastPart(made.recipient) != observed.runtime ==>
      mine.canonical == observed.runtime
  }

  predicate RoutedFrom(messages: seq<Message>, j: nat, k: nat, call: Call, observed: Identity) {
    && j < |messages| && messages[j].Message? && k < |Created(messages[j], j)|
    && Routed(Created(messages[j], j)[k].identity, call.identity, observed)
  }

  lemma AgreesStays(a: Call, b: Call, observed: Identity)
    requires Agrees(a.identity, observed) && Grown(a, b)
    ensures Agrees(b.identity, observed)
  {
  }

  // A call is compatible with an observation exactly when it would agree with it after
  // learning from it.
  lemma CompatibleAgrees(call: Call, observed: Identity)
    ensures Compatible(call, observed) <==>
              && Agrees(Merged(call.identity, observed), observed)
              && Routed(call.identity, call.identity, observed)
  {
    hide LastPart;
  }

  // What a message without calls of its own tells about a tool ends up on one call that never
  // says otherwise, and a result is recorded there.
  lemma ObservationIsLearned(messages: seq<Message>, i: nat)
    requires Speaks(messages, i)
    ensures var m, end := messages[i], Run(messages, |messages|);
            && Goes(messages, i) < |end.calls|
            && var call, source := end.calls[Goes(messages, i)], end.sources[Goes(messages, i)];
               && Agrees(call.identity, m.observed)
               && (IsResult(m) ==> call.result == m.id && end.answers[Goes(messages, i)] == i)
               && (source.Made? ==> RoutedFrom(messages, source.index, source.k, call, m.observed))
  {
    hide Run, Created, Compatible, LastPart, Sound, Grown, Routed, Agrees;
    var s, t, end := Run(messages, i), Run(messages, i + 1), Run(messages, |messages|);
    var c := Goes(messages, i);
    ObservationGoes(messages, i);
    AttachmentAgrees(messages, i);
    RunKeeps(messages, i + 1, |messages|);
    NothingIsOverwritten(messages, i + 1, |messages|);
    EachGrown(t.calls, end.calls);
    AgreesStays(t.calls[c], end.calls[c], messages[i].observed);
    if IsResult(messages[i]) {
      ResultStays(t.calls[c], end.calls[c]);
    }
    if end.sources[c].Made? {
      var j, k := end.sources[c].index, end.sources[c].k;
      RoutedByThen(messages, i, j, k);
      RoutedStays(Created(messages[j], j)[k].identity, t.calls[c], end.calls[c], messages[i].observed);
    }
  }

  lemma ResultStays(a: Call, b: Call)
    requires Grown(a, b) && a.result != ""
    ensures b.result == a.result
  {
  }

  lemma RoutedStays(made: Identity, a: Call, b: Call, observed: Identity)
    requires Routed(made, a.identity, observed) && Grown(a, b)
    ensures Routed(made, b.identity, observed)
  {
    hide LastPart;
  }

  // The call right after the step.
  lemma AttachmentAgrees(messages: seq<Message>, i: nat)
    requires Speaks(messages, i)
    ensures var t, c := Run(messages, i + 1), Goes(messages, i);
            && c < |t.calls| && Agrees(t.calls[c].identity, messages[i].observed)
            && (IsResult(messages[i]) ==> t.calls[c].result == messages[i].id)
  {
    hide Created, LastPart, Forgotten, Agrees, Routed, Merged, Compatible;
    var s, m := Run(messages, i), messages[i];
    var p := Choice(s.calls, s.pending, m);
    assert WithCreated(m, i, s) == s;
    ChoiceIsAPlace(s.calls, s.pending, m);
    AgreesWithItself(m.observed);
    if p != -1 {
      CompatibleAgrees(s.calls[s.pending[p]], m.observed);
    }
  }

  lemma AgreesWithItself(observed: Identity)
    ensures Agrees(observed, observed)
  {
  }

  lemma RoutedByThen(messages: seq<Message>, i: nat, j: nat, k: nat)
    requires Speaks(messages, i)
    requires var t, c := Run(messages, i + 1), Goes(messages, i); c < |t.sources| && t.sources[c] == Made(j, k)
    ensures var t, c := Run(messages, i + 1), Goes(messages, i);
            RoutedFrom(messages, j, k, t.calls[c], messages[i].observed)
  {
    hide Created, LastPart, Forgotten, Merged, AnswersOk, AllMade, AllHeard, Waiting, Compatible, Grown, Routed;
    var s, m, c := Run(messages, i), messages[i], Goes(messages, i);
    assert WithCreated(m, i, s) == s;
    ChoiceIsAPlace(s.calls, s.pending, m);
    RunIsJoined(messages, i);
    assert Choice(s.calls, s.pending, m) != -1;
    assert SourceOk(messages, i, i, s.sources[c], s.calls[c]);
    RoutedNow(Created(messages[j], j)[k], s.calls[c], m.observed);
  }

  lemma RoutedNow(made: Call, call: Call, observed: Identity)
    requires Grown(made, call) && Compatible(call, observed)
    ensures Routed(made.identity, Merged(call.identity, observed), observed)
  {
    hide LastPart;
  }

  // What an assistant message with calls tells about a tool is learned by each of its calls
  // that does not contradict it.
  lemma OwnIsLearned(messages: seq<Message>, i: nat, k: nat)
    requires i < |messages| && messages[i].Message? && messages[i].observed != NOTHING
    requires k < |Created(messages[i], i)| && Compatible(Created(messages[i], i)[k], messages[i].observed)
    ensures var end := Run(messages, |messages|);
            exists c :: 0 <= c < |end.calls| && end.sources[c] == Made(i, k)
                        && Agrees(end.calls[c].identity, messages[i].observed)
  {
    hide Run, Created, Compatible, Grown, Agrees, Routed, Merged;
    var s, t, end := Run(messages, i), Run(messages, i + 1), Run(messages, |messages|);
    var made, c := Created(messages[i], i)[k], |Run(messages, i).calls| + k;
    StepMakes(messages, i);
    OwnStep(messages, i);
    RunKeeps(messages, i + 1, |messages|);
    NothingIsOverwritten(messages, i + 1, |messages|);
    EachGrown(t.calls, end.calls);
    CompatibleAgrees(made, messages[i].observed);
    AgreesStays(t.calls[c], end.calls[c], messages[i].observed);
    assert end.sources[c] == Made(i, k);
  }

  lemma OwnStep(messages: seq<Message>, i: nat)
    requires i < |messages| && messages[i].Message? && messages[i].observed != NOTHING
    requires Created(messages[i], i) != []
    ensures var s, t, made := Run(messages, i), Run(messages, i + 1), Created(messages[i], i);
            && |t.calls| == |s.calls| + |made|
            && forall k | 0 <= k < |made| && Compatible(made[k], messages[i].observed) ::
                 t.calls[|s.calls| + k].identity == Merged(made[k].identity, messages[i].observed)
  {
    hide Created, Compatible, Merged;
    CreatedShape(messages[i], i, Run(messages, i));
  }

  // ---------------------------------------------------------------- calls that were put in

  // A call put in for an observation says what the observation says and nothing else.
  lemma CallsPutIn(messages: seq<Message>, c: nat)
    requires c < |Run(messages, |messages|).calls| && Run(messages, |messages|).sources[c].Observed?
    ensures var s := Run(messages, |messages|);
            var i, call := s.sources[c].index, s.calls[c];
            && i < |messages| && messages[i].Message?
            && call.id == (if messages[i].link != "" then messages[i].link
                           else if messages[i].id != "" then messages[i].id
                           else "observed:" + Text.Digits(i))
            && call.message == messages[i].link && call.identity == messages[i].observed
            && call.result == (if messages[i].role == Tool then messages[i].id else "")
  {
    hide Run, Grown, Created, AnswersOk, AllMade, AllHeard, Waiting;
    RunIsJoined(messages, |messages|);
    var s := Run(messages, |messages|);
    assert SourceOk(messages, |messages|, |messages|, s.sources[c], s.calls[c]);
  }

  // ---------------------------------------------------------------- which call is chosen

  // The waiting calls stand in the order in which they were made.
  lemma {:induction false} PendingInOrder(messages: seq<Message>, n: nat)
    requires n <= |messages|
    ensures Increasing(Run(messages, n).pending)
  {
    hide Step;
    if n > 0 {
      PendingInOrder(messages, n - 1);
      StepInOrder(messages[n - 1], n - 1, Run(messages, n - 1));
    }
  }

  lemma StepInOrder(m: Message, n: nat, s: State)
    requires s.Ready() && Increasing(s.pending)
    ensures Increasing(Step(m, n, s).pending)
  {
    hide Created, IsChoice, PutInFor, Informed, Learned, Forgotten, IsResult;
    if m.Message? {
      var t := WithCreated(m, n, s);
      assert Increasing(t.pending) by {
        assert forall q | 0 <= q < |s.pending| :: s.pending[q] < |s.calls|;
      }
      ChoiceIsAPlace(t.calls, t.pending, m);
      ForgottenInOrder(t.calls + [PutInFor(m, n)], t.pending, |t.calls|);
      var p := Choice(t.calls, t.pending, m);
      if p != -1 {
        ForgottenInOrder(t.calls[t.pending[p] := Informed(t.calls[t.pending[p]], m)], t.pending, t.pending[p]);
      }
    }
  }

  lemma ForgottenInOrder(calls: seq<Call>, pending: seq<nat>, c: nat)
    requires c < |calls| && Places(calls, pending) && Increasing(pending)
    ensures Increasing(Forgotten(calls, pending, c))
  {
    hide IsFirstEqual;
    FirstEqualIsAPlace(calls, pending, c);
  }

  // The call at this place waits, and can take what the message says.
  predicate Takes(s: State, m: Message, c: nat)
    requires s.Ready() && m.Message?
  {
    c in s.pending && c < |s.calls| && Compatible(s.calls[c], m.observed)
  }

  predicate Linked(s: State, m: Message, c: nat)
    requires s.Ready() && m.Message?
  {
    Takes(s, m, c) && (s.calls[c].id == m.link || s.calls[c].message == m.link)
  }

  // An observation goes to the latest waiting call that its link names and that can take it;
  // without one, to the latest that can take it; and to a call of its own only if none can.
  ghost predicate Decided(s: State, m: Message, c: nat)
    requires s.Ready() && m.Message?
  {
    if m.link != "" && exists d: nat :: Linked(s, m, d) then
      Linked(s, m, c) && forall d: nat | Linked(s, m, d) :: d <= c
    else if exists d: nat :: Takes(s, m, d) then
      Takes(s, m, c) && forall d: nat | Takes(s, m, d) :: d <= c
    else c == |s.calls|
  }

  lemma ChoiceDecides(s: State, m: Message)
    requires s.Ready() && m.Message? && Increasing(s.pending)
    requires forall q | 0 <= q < |s.pending| :: s.calls[s.pending[q]].result == ""
    ensures var p := Choice(s.calls, s.pending, m);
            -1 <= p < |s.pending| && Decided(s, m, if p == -1 then |s.calls| else s.pending[p])
  {
    hide Compatible;
    var p := Choice(s.calls, s.pending, m);
    assert forall q | 0 <= q < |s.pending| ::
        Takes(s, m, s.pending[q]) <==> Matches(s.calls[s.pending[q]], m.observed, "");
    assert m.link != "" ==> forall q | 0 <= q < |s.pending| ::
        Linked(s, m, s.pending[q]) <==> Matches(s.calls[s.pending[q]], m.observed, m.link);
  }

  lemma LinkDecides(messages: seq<Message>, i: nat)
    requires Speaks(messages, i)
    ensures Decided(Run(messages, i), messages[i], Goes(messages, i))
  {
    hide Created, Compatible, Run, Decided, Choice, Sound;
    RunIsJoined(messages, i);
    PendingInOrder(messages, i);
    AllWaitWithoutResult(messages, i, Run(messages, i));
    ChoiceDecides(Run(messages, i), messages[i]);
  }

  lemma AllWaitWithoutResult(messages: seq<Message>, i: nat, s: State)
    requires i <= |messages| && Sound(messages, i, i, s)
    ensures forall q | 0 <= q < |s.pending| :: s.calls[s.pending[q]].result == ""
  {
  }

  // ---------------------------------------------------------------- which calls wait

  // Every result that says something about a tool has an id.
  predicate ResultsHaveIds(messages: seq<Message>, n: nat)
    requires n <= |messages|
  {
    forall i | 0 <= i < n && messages[i].Message? && messages[i].role == Tool && messages[i].observed != NOTHING ::
      messages[i].id != ""
  }

  ghost predicate OpenWait(s: State)
    requires s.Ready()
  {
    forall c | 0 <= c < |s.calls| && s.sources[c].Made? && s.calls[c].result == "" :: c in s.pending
  }

  // Then exactly the calls of messages without a result wait.
  lemma {:induction false} OpenCallsWait(messages: seq<Message>, n: nat)
    requires n <= |messages| && ResultsHaveIds(messages, n)
    ensures var s := Run(messages, n);
            forall c: nat :: c in s.pending <==> c < |s.calls| && s.sources[c].Made? && s.calls[c].result == ""
  {
    hide Run, Joined;
    AllOpenWait(messages, n);
    RunIsJoined(messages, n);
  }

  lemma {:induction false} AllOpenWait(messages: seq<Message>, n: nat)
    requires n <= |messages| && ResultsHaveIds(messages, n)
    ensures OpenWait(Run(messages, n))
  {
    hide Step, OpenWait, Sound;
    if n == 0 {
      NothingWaits();
    } else {
      AllOpenWait(messages, n - 1);
      RunIsJoined(messages, n - 1);
      OpenWaitStays(messages, n - 1, Run(messages, n - 1));
    }
  }

  lemma NothingWaits()
    ensures OpenWait(State([], [], [], []))
  {
  }

  lemma OpenWaitStays(messages: seq<Message>, n: nat, s: State)
    requires s.Ready() && n < |messages| && Sound(messages, n, n, s) && OpenWait(s)
    requires ResultsHaveIds(messages, n + 1)
    ensures OpenWait(Step(messages[n], n, s))
  {
    hide Created, Joined, Attached, Learned, WithCreated, Waiting, OpenWait;
    var m := messages[n];
    if m.Message? {
      var t := WithCreated(m, n, s);
      CreatedJoins(messages, n, s);
      CreatedWaits(m, n, s);
      if m.observed != NOTHING {
        if Created(m, n) != [] {
          LearnedWaits(t, |s.calls|, m.observed);
        } else {
          AttachedStillWaits(m, n, t);
        }
      }
    }
  }

  lemma CreatedWaits(m: Message, n: nat, s: State)
    requires m.Message? && s.Ready() && OpenWait(s)
    ensures OpenWait(WithCreated(m, n, s))
  {
    hide Created, WithCreated;
    var t, made := WithCreated(m, n, s), Created(m, n);
    CreatedShape(m, n, s);
    forall c | 0 <= c < |t.calls| && t.sources[c].Made? && t.calls[c].result == ""
      ensures c in t.pending
    {
      if c >= |s.calls| {
        assert t.pending[|s.pending| + (c - |s.calls|)] == c;
      } else {
        assert t.calls[..|s.calls|][c] == t.calls[c] && t.sources[..|s.calls|][c] == t.sources[c];
      }
    }
  }

  lemma LearnedWaits(s: State, from: nat, observed: Identity)
    requires s.Ready() && OpenWait(s)
    ensures s.(calls := Learned(s.calls, from, observed)).Ready()
    ensures OpenWait(s.(calls := Learned(s.calls, from, observed)))
  {
    hide Compatible, Merged;
  }

  lemma AttachedStillWaits(m: Message, n: nat, s: State)
    requires m.Message? && s.Ready() && OpenWait(s) && Waiting(s) && (m.role == Tool ==> m.id != "")
    ensures OpenWait(Attached(m, n, s))
  {
    hide IsChoice, Merged, IsResult, FirstEqual;
    var p := Choice(s.calls, s.pending, m);
    ChoiceIsAPlace(s.calls, s.pending, m);
    if p == -1 {
      var calls := s.calls + [PutInFor(m, n)];
      if m.role == Tool {
        FirstEqualIsAPlace(calls, s.pending, |s.calls|);
        assert FirstEqual(calls, s.pending, |s.calls|) == -1;
      }
    } else if m.role == Tool {
      var c := s.pending[p];
      var calls := s.calls[c := Informed(s.calls[c], m)];
      AnsweredIsRemoved(calls, s.pending, p);
    }
  }

  // ---------------------------------------------------------------- what a message leaves alone

  // A message changes no earlier call but the one its observation goes to.
  lemma OneCallLearns(messages: seq<Message>, i: nat, c: nat)
    requires i < |messages| && c < |Run(messages, i).calls|
    ensures c < |Run(messages, i + 1).calls|
    ensures Run(messages, i + 1).calls[c] == Run(messages, i).calls[c] ||
            (Speaks(messages, i) && c == Goes(messages, i))
  {
    hide Created, IsChoice, PutInFor, Informed, Forgotten, IsResult, Compatible, Merged;
    var s := Run(messages, i);
    if messages[i].Message? {
      var t := WithCreated(messages[i], i, s);
      assert t.calls[c] == s.calls[c];
      ChoiceIsAPlace(t.calls, t.pending, messages[i]);
      if Created(messages[i], i) == [] {
        assert t == s;
      }
    }
  }
}
