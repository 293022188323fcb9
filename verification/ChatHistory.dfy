/** The replayed history of a Chat Completions request: the sanitizer and the validator. */
module ChatHistory {
  import opened Options
  import opened Text
  import opened Json
  import opened ToolMetadata

  /** Fields of another type than declared count as absent. */
  datatype ToolCall = ToolCall(id: Option<string>, name: Option<string>, arguments: Option<string>)

  /** `content` stands for everything in a message the passes do not look at. */
  datatype Message = Message(role: string, toolCalls: Option<seq<ToolCall>>, toolCallId: Option<string>, content: Json)

  datatype Code = MissingToolCallId | DuplicateToolCallId | OrphanedOutput | EmptyToolName

  /** Why a body is rejected, and the message at which it is. */
  datatype Problem = Problem(code: Code, index: nat)

  predicate HasCalls(m: Message) {
    m.role == "assistant" && m.toolCalls.Some?
  }

  function CallsOf(m: Message): seq<ToolCall> {
    if HasCalls(m) then m.toolCalls.value else []
  }

  /** All tool calls of assistant messages, in order. */
  function AllCalls(messages: seq<Message>): seq<ToolCall> {
    if messages == [] then [] else CallsOf(messages[0]) + AllCalls(messages[1..])
  }

  function Ids(calls: seq<ToolCall>): set<string> {
    set i | 0 <= i < |calls| && Truthy(calls[i].id) :: calls[i].id.value
  }

  predicate Named(call: ToolCall) {
    call.name.Some? && Trim(call.name.value) != ""
  }

  // ----- the sanitizer -----

  function KeepCalls(calls: seq<ToolCall>): seq<ToolCall> {
    if calls == [] then []
    else (if Truthy(calls[0].id) then [calls[0]] else []) + KeepCalls(calls[1..])
  }

  function CleanMessage(m: Message): Message {
    if HasCalls(m) && |KeepCalls(m.toolCalls.value)| != |m.toolCalls.value| then
      m.(toolCalls := if KeepCalls(m.toolCalls.value) == [] then None else Some(KeepCalls(m.toolCalls.value)))
    else m
  }

  function CleanMessages(messages: seq<Message>): (r: seq<Message>)
    ensures |r| == |messages| && forall i :: 0 <= i < |r| ==> r[i] == CleanMessage(messages[i])
  {
    seq(|messages|, i requires 0 <= i < |messages| => CleanMessage(messages[i]))
  }

  /** How many calls have no id. */
  function Nameless(messages: seq<Message>): nat {
    var calls := AllCalls(messages);
    KeepCallsShorter(calls);
    |calls| - |KeepCalls(calls)|
  }

  lemma {:induction false} KeepCallsShorter(calls: seq<ToolCall>)
    ensures |KeepCalls(calls)| <= |calls|
    ensures |KeepCalls(calls)| == |calls| ==> KeepCalls(calls) == calls
  {
    if calls != [] {
      KeepCallsShorter(calls[1..]);
    }
  }

  predicate KeepsResult(m: Message, known: set<string>) {
    m.role != "tool" || (Truthy(m.toolCallId) && m.toolCallId.value in known)
  }

  function KeepMessages(messages: seq<Message>, known: set<string>): (r: seq<Message>)
    ensures |r| <= |messages|
  {
    if messages == [] then []
    else KeepMessages(Init(messages), known) + if KeepsResult(Last(messages), known) then [Last(messages)] else []
  }

  /** The history after sanitizing. */
  function Sanitized(messages: seq<Message>): seq<Message> {
    if Nameless(messages) == 0 then CleanMessages(messages)
    else KeepMessages(CleanMessages(messages), Ids(AllCalls(messages)))
  }

  class ChatBody {
    var messages: seq<Message>

    constructor (messages: seq<Message>)
      ensures this.messages == messages
    {
      this.messages := messages;
    }

    /** Drop the calls without an id, message by message; the other ids are known afterwards. */
    method DropNamelessCalls() returns (dropped: nat, knownIds: set<string>)
      modifies this
      ensures messages == CleanMessages(old(messages))
      ensures dropped == Nameless(old(messages)) && knownIds == Ids(AllCalls(old(messages)))
    {
      dropped, knownIds := 0, {};
      ghost var before := messages;
      var i := 0;
      assert before[..0] == [] && AllCalls([]) == [] && Ids([]) == {};
      while i < |messages|
        invariant 0 <= i <= |messages| == |before|
        invariant messages == CleanMessages(before[..i]) + before[i..]
        invariant knownIds == Ids(AllCalls(before[..i])) && dropped == Nameless(before[..i])
      {
        var m := messages[i];
        CleanStep(before, i);
        NextMessage(before, i);
        if HasCalls(m) {
          var cleaned := KeepCalls(m.toolCalls.value);
          KeepCallsShorter(m.toolCalls.value);
          dropped := dropped + (|m.toolCalls.value| - |cleaned|);
          knownIds := knownIds + Ids(cleaned);
          if |cleaned| != |m.toolCalls.value| {
            messages := messages[i := m.(toolCalls := if cleaned == [] then None else Some(cleaned))];
          }
        }
        i := i + 1;
      }
      assert before[..i] == before && before[i..] == [];
    }

    method Sanitize() returns (droppedToolCalls: nat, droppedToolResults: nat)
      modifies this
      ensures messages == Sanitized(old(messages))
      ensures droppedToolCalls == Nameless(old(messages))
      ensures droppedToolResults == |old(messages)| - |messages|
    {
      var knownIds;
      droppedToolCalls, knownIds := DropNamelessCalls();
      droppedToolResults := 0;
      if droppedToolCalls > 0 {
        var filtered := FilterResults(knownIds);
        droppedToolResults := |messages| - |filtered|;
        messages := filtered;
      }
    }

    /** `messages.filter(...)` over the tool results. */
    method FilterResults(knownIds: set<string>) returns (filtered: seq<Message>)
      ensures filtered == KeepMessages(messages, knownIds)
    {
      filtered := [];
      var i := 0;
      while i < |messages|
        invariant 0 <= i <= |messages| && filtered == KeepMessages(messages[..i], knownIds)
      {
        assert Init(messages[..i + 1]) == messages[..i];
        if KeepsResult(messages[i], knownIds) {
          filtered := filtered + [messages[i]];
        }
        i := i + 1;
      }
      assert messages[..i] == messages;
    }
  }

  lemma {:induction false} AllCallsAppend(a: seq<Message>, b: seq<Message>)
    ensures AllCalls(a + b) == AllCalls(a) + AllCalls(b)
  {
    if a == [] {
      assert a + b == b;
    } else {
      assert (a + b)[1..] == a[1..] + b;
      AllCallsAppend(a[1..], b);
    }
  }

  lemma {:induction false} KeepCallsAppend(a: seq<ToolCall>, b: seq<ToolCall>)
    ensures KeepCalls(a + b) == KeepCalls(a) + KeepCalls(b)
  {
    if a == [] {
      assert a + b == b;
    } else {
      var head := if Truthy(a[0].id) then [a[0]] else [];
      assert (a + b)[1..] == a[1..] + b && (a + b)[0] == a[0];
      KeepCallsAppend(a[1..], b);
      assert KeepCalls(a + b) == head + KeepCalls(a[1..] + b);
    }
  }

  lemma IdsAppend(a: seq<ToolCall>, b: seq<ToolCall>)
    ensures Ids(a + b) == Ids(a) + Ids(b)
  {
    forall id | id in Ids(a) + Ids(b)
      ensures id in Ids(a + b)
    {
      if id in Ids(a) {
        var i :| 0 <= i < |a| && Truthy(a[i].id) && a[i].id.value == id;
        assert (a + b)[i] == a[i];
      } else {
        var i :| 0 <= i < |b| && Truthy(b[i].id) && b[i].id.value == id;
        assert (a + b)[|a| + i] == b[i];
      }
    }
  }

  lemma {:induction false} KeepCallsIds(calls: seq<ToolCall>)
    ensures Ids(KeepCalls(calls)) == Ids(calls)
    ensures forall i :: 0 <= i < |KeepCalls(calls)| ==> Truthy(KeepCalls(calls)[i].id) && KeepCalls(calls)[i] in calls
    ensures (forall i :: 0 <= i < |calls| ==> Truthy(calls[i].id)) ==> KeepCalls(calls) == calls
  {
    if calls != [] {
      KeepCallsIds(calls[1..]);
      assert calls == [calls[0]] + calls[1..];
      IdsAppend([calls[0]], calls[1..]);
      IdsAppend(if Truthy(calls[0].id) then [calls[0]] else [], KeepCalls(calls[1..]));
      assert Ids([calls[0]]) == if Truthy(calls[0].id) then {calls[0].id.value} else {};
    }
  }

  lemma CleanStep(before: seq<Message>, i: nat)
    requires i < |before|
    ensures var now := CleanMessages(before[..i]) + before[i..];
      now[i] == before[i] && CleanMessages(before[..i + 1]) + before[i + 1..] == now[i := CleanMessage(before[i])]
  {
  }

  lemma NextMessage(messages: seq<Message>, i: nat)
    requires i < |messages|
    ensures AllCalls(messages[..i + 1]) == AllCalls(messages[..i]) + CallsOf(messages[i])
    ensures Ids(AllCalls(messages[..i + 1])) == Ids(AllCalls(messages[..i])) + Ids(KeepCalls(CallsOf(messages[i])))
    ensures Nameless(messages[..i + 1])
         == Nameless(messages[..i]) + |CallsOf(messages[i])| - |KeepCalls(CallsOf(messages[i]))|
  {
    assert messages[..i + 1] == messages[..i] + [messages[i]];
    AllCallsAppend(messages[..i], [messages[i]]);
    assert AllCalls([messages[i]]) == CallsOf(messages[i]) + AllCalls([]);
    KeepCallsAppend(AllCalls(messages[..i]), CallsOf(messages[i]));
    IdsAppend(AllCalls(messages[..i]), CallsOf(messages[i]));
    KeepCallsIds(CallsOf(messages[i]));
  }

  // ----- the validator -----

  /** The first problem among a message's calls, with these ids seen before. */
  function CheckCalls(calls: seq<ToolCall>, seen: set<string>): Option<Code> {
    if calls == [] then None
    else if !Truthy(calls[0].id) then Some(MissingToolCallId)
    else if calls[0].id.value in seen then Some(DuplicateToolCallId)
    else if !Named(calls[0]) then Some(EmptyToolName)
    else CheckCalls(calls[1..], seen + {calls[0].id.value})
  }

  function CheckResult(m: Message, known: set<string>): Option<Code> {
    if m.role != "tool" then None
    else if !Truthy(m.toolCallId) then Some(MissingToolCallId)
    else if m.toolCallId.value !in known then Some(OrphanedOutput)
    else None
  }

  function CheckMessage(m: Message, seen: set<string>): Option<Code> {
    match CheckCalls(CallsOf(m), seen)
    case Some(code) => Some(code)
    case None => CheckResult(m, seen + Ids(CallsOf(m)))
  }

  /** The first problem of a body. */
  function Check(messages: seq<Message>): Option<Problem> {
    if messages == [] then None
    else
      match Check(Init(messages))
      case Some(problem) => Some(problem)
      case None =>
        match CheckMessage(Last(messages), Ids(AllCalls(Init(messages))))
        case Some(code) => Some(Problem(code, |messages| - 1))
        case None => None
  }

  method ValidateCalls(calls: seq<ToolCall>, seen: set<string>) returns (problem: Option<Code>, seenIds: set<string>)
    ensures problem == CheckCalls(calls, seen)
    ensures problem == None ==> seenIds == seen + Ids(calls)
  {
    seenIds := seen;
    var i := 0;
    while i < |calls|
      invariant 0 <= i <= |calls|
      invariant CheckCalls(calls[i..], seenIds) == CheckCalls(calls, seen)
      invariant seenIds == seen + Ids(calls[..i])
    {
      var tc := calls[i];
      assert calls[i..][1..] == calls[i + 1..];
      if !Truthy(tc.id) {
        return Some(MissingToolCallId), seenIds;
      }
      if tc.id.value in seenIds {
        return Some(DuplicateToolCallId), seenIds;
      }
      if !Named(tc) {
        return Some(EmptyToolName), seenIds;
      }
      seenIds := seenIds + {tc.id.value};
      assert calls[..i + 1] == calls[..i] + [tc];
      IdsAppend(calls[..i], [tc]);
      assert Ids([tc]) == {tc.id.value};
      i := i + 1;
    }
    assert calls[..i] == calls;
    problem := None;
  }

  lemma NoIds()
    ensures Ids(AllCalls([])) == {}
  {
  }

  /** `validateOpenAiChatBody` */
  method Validate(messages: seq<Message>) returns (problem: Option<Problem>)
    ensures problem == Check(messages)
  {
    hide Ids, AllCalls, CheckCalls, CallsOf, KeepCalls, Nameless;
    var seenIds: set<string> := {};
    var i := 0;
    NoIds();
    while i < |messages|
      invariant 0 <= i <= |messages|
      invariant Check(messages[..i]) == None && seenIds == Ids(AllCalls(messages[..i]))
    {
      var m := messages[i];
      assert Init(messages[..i + 1]) == messages[..i];
      var code, seen := ValidateCalls(CallsOf(m), seenIds);
      if code == None {
        if m.role == "tool" {
          if !Truthy(m.toolCallId) {
            code := Some(MissingToolCallId);
          } else if m.toolCallId.value !in seen {
            code := Some(OrphanedOutput);
          }
        }
      }
      assert code == CheckMessage(m, seenIds);
      if code.Some? {
        FirstProblem(messages, i + 1);
        return Some(Problem(code.value, i));
      }
      NextMessage(messages, i);
      KeepCallsIds(CallsOf(m));
      seenIds := seen;
      i := i + 1;
    }
    assert messages[..i] == messages;
    problem := None;
  }

  /** A problem in a prefix is the problem of the whole. */
  lemma {:induction false} FirstProblem(messages: seq<Message>, n: nat)
    requires n <= |messages| && Check(messages[..n]).Some?
    ensures Check(messages) == Check(messages[..n])
  {
    if n < |messages| {
      assert Init(messages)[..n] == messages[..n];
      FirstProblem(Init(messages), n);
    } else {
      assert messages[..n] == messages;
    }
  }

  // ----- the declarative specification -----

  /** Every call has an id and a name, and no two calls share an id. */
  predicate CallsAccepted(calls: seq<ToolCall>) {
    && (forall i :: 0 <= i < |calls| ==> Truthy(calls[i].id) && Named(calls[i]))
    && (forall i, j :: 0 <= i < j < |calls| ==> calls[i].id != calls[j].id)
  }

  /** Every tool result refers to a call of an earlier message. */
  predicate ResultsAccepted(messages: seq<Message>) {
    forall i :: 0 <= i < |messages| && messages[i].role == "tool" ==>
      Truthy(messages[i].toolCallId) && messages[i].toolCallId.value in Ids(AllCalls(messages[..i]))
  }

  predicate Accepted(messages: seq<Message>) {
    CallsAccepted(AllCalls(messages)) && ResultsAccepted(messages)
  }

  lemma {:induction false} CheckCallsExact(calls: seq<ToolCall>, seen: set<string>)
    ensures CheckCalls(calls, seen) == None <==> CallsAccepted(calls) && Ids(calls) !! seen
  {
    if calls != [] {
      assert calls == [calls[0]] + calls[1..];
      IdsAppend([calls[0]], calls[1..]);
      if Truthy(calls[0].id) {
        assert Ids([calls[0]]) == {calls[0].id.value};
        CheckCallsExact(calls[1..], seen + {calls[0].id.value});
        HeadIsFresh(calls);
      }
    }
  }

  lemma HeadIsFresh(calls: seq<ToolCall>)
    requires calls != [] && Truthy(calls[0].id)
    ensures CallsAccepted(calls) <==>
      CallsAccepted(calls[1..]) && Named(calls[0]) && calls[0].id.value !in Ids(calls[1..])
  {
    var tail := calls[1..];
    if CallsAccepted(calls) {
      forall i | 0 <= i < |tail|
        ensures tail[i] == calls[i + 1] && Truthy(tail[i].id) && Named(tail[i]) && tail[i].id != calls[0].id
      {
      }
    }
    if CallsAccepted(tail) && Named(calls[0]) && calls[0].id.value !in Ids(tail) {
      forall i | 0 <= i < |calls|
        ensures Truthy(calls[i].id) && Named(calls[i]) && (i > 0 ==> calls[i].id != calls[0].id)
      {
        if i > 0 {
          assert calls[i] == tail[i - 1];
        }
      }
      forall i, j | 0 <= i < j < |calls|
        ensures calls[i].id != calls[j].id
      {
        if i > 0 {
          assert calls[i] == tail[i - 1] && calls[j] == tail[j - 1];
        }
      }
    }
  }

  lemma CallsAcceptedAppend(a: seq<ToolCall>, b: seq<ToolCall>)
    ensures CallsAccepted(a + b) <==> CallsAccepted(a) && CallsAccepted(b) && Ids(a) !! Ids(b)
  {
    if CallsAccepted(a + b) {
      forall i | 0 <= i < |a| ensures (a + b)[i] == a[i] {
      }
      forall i | 0 <= i < |b| ensures (a + b)[|a| + i] == b[i] {
      }
      forall i, j | 0 <= i < |a| && 0 <= j < |b|
        ensures a[i].id != b[j].id
      {
        assert (a + b)[i] == a[i] && (a + b)[|a| + j] == b[j];
      }
      forall i, j | 0 <= i < j < |a| ensures a[i].id != a[j].id {
        assert (a + b)[i] == a[i] && (a + b)[j] == a[j];
      }
      forall i, j | 0 <= i < j < |b| ensures b[i].id != b[j].id {
        assert (a + b)[|a| + i] == b[i] && (a + b)[|a| + j] == b[j];
      }
    }
    if CallsAccepted(a) && CallsAccepted(b) && Ids(a) !! Ids(b) {
      forall i, j | 0 <= i < |a| && 0 <= j < |b|
        ensures a[i].id != b[j].id
      {
        assert a[i].id.value in Ids(a) && b[j].id.value in Ids(b);
      }
    }
  }

  /** The validator accepts exactly the bodies the specification accepts. */
  lemma {:induction false} ValidatorExact(messages: seq<Message>)
    ensures Check(messages) == None <==> Accepted(messages)
  {
    if messages != [] {
      var before, m := Init(messages), Last(messages);
      ValidatorExact(before);
      assert messages == before + [m];
      AllCallsAppend(before, [m]);
      assert AllCalls([m]) == CallsOf(m) + AllCalls([]);
      assert AllCalls(messages) == AllCalls(before) + CallsOf(m);
      CallsAcceptedAppend(AllCalls(before), CallsOf(m));
      CheckCallsExact(CallsOf(m), Ids(AllCalls(before)));
      ResultsSnoc(before, m);
      if m.role == "tool" {
        assert CallsOf(m) == [] && Ids([]) == {};
      }
    }
  }

  lemma ResultsSnoc(before: seq<Message>, m: Message)
    ensures ResultsAccepted(before + [m]) <==>
      ResultsAccepted(before)
      && (m.role == "tool" ==> Truthy(m.toolCallId) && m.toolCallId.value in Ids(AllCalls(before)))
  {
    var messages := before + [m];
    forall i | 0 <= i < |before|
      ensures messages[i] == before[i] && messages[..i] == before[..i]
    {
    }
    assert messages[|before|] == m && messages[..|before|] == before;
  }

  /** What each rejection says about the first message that is not acceptable. */
  lemma {:induction false} ProblemIsReal(messages: seq<Message>)
    requires Check(messages).Some?
    ensures var problem := Check(messages).value;
      && problem.index < |messages|
      && Accepted(messages[..problem.index]) && !Accepted(messages[..problem.index + 1])
      && (problem.code == MissingToolCallId ==> LacksId(messages[problem.index]))
      && (problem.code == EmptyToolName ==> exists call | call in CallsOf(messages[problem.index]) :: !Named(call))
      && (problem.code == OrphanedOutput ==> messages[problem.index].role == "tool")
  {
    var i := Check(messages).value.index;
    if Check(Init(messages)).Some? {
      ProblemIsReal(Init(messages));
      assert Init(messages)[..i] == messages[..i] && Init(messages)[..i + 1] == messages[..i + 1];
    } else {
      assert messages[..i] == Init(messages) && messages[..i + 1] == messages;
      ValidatorExact(Init(messages));
      ValidatorExact(messages);
      if CheckCalls(CallsOf(Last(messages)), Ids(AllCalls(Init(messages)))).Some? {
        CodeIsReal(CallsOf(Last(messages)), Ids(AllCalls(Init(messages))));
      }
    }
  }

  predicate LacksId(m: Message) {
    (exists call | call in CallsOf(m) :: !Truthy(call.id)) || (m.role == "tool" && !Truthy(m.toolCallId))
  }

  lemma {:induction false} CodeIsReal(calls: seq<ToolCall>, seen: set<string>)
    requires CheckCalls(calls, seen).Some?
    ensures CheckCalls(calls, seen).value == MissingToolCallId ==> exists call | call in calls :: !Truthy(call.id)
    ensures CheckCalls(calls, seen).value == EmptyToolName ==> exists call | call in calls :: !Named(call)
    ensures CheckCalls(calls, seen).value != OrphanedOutput
  {
    if Truthy(calls[0].id) && calls[0].id.value !in seen && Named(calls[0]) {
      CodeIsReal(calls[1..], seen + {calls[0].id.value});
      assert forall call | call in calls[1..] :: call in calls;
    } else {
      assert calls[0] in calls;
    }
  }

  // ----- the sanitizer against the validator -----

  lemma {:induction false} CleanCalls(messages: seq<Message>)
    ensures AllCalls(CleanMessages(messages)) == KeepCalls(AllCalls(messages))
  {
    if messages != [] {
      var m := messages[0];
      CleanCalls(messages[1..]);
      assert CleanMessages(messages)[1..] == CleanMessages(messages[1..]);
      KeepCallsAppend(CallsOf(m), AllCalls(messages[1..]));
      KeepCallsShorter(CallsOf(m));
    }
  }

  lemma {:induction false} KeepMessagesCalls(messages: seq<Message>, known: set<string>)
    ensures AllCalls(KeepMessages(messages, known)) == AllCalls(messages)
    ensures forall m :: m in KeepMessages(messages, known) <==> m in messages && KeepsResult(m, known)
    ensures (forall m :: m in messages ==> KeepsResult(m, known)) ==> KeepMessages(messages, known) == messages
  {
    if messages != [] {
      var before, m := Init(messages), Last(messages);
      KeepMessagesCalls(before, known);
      assert messages == before + [m];
      AllCallsAppend(before, [m]);
      AllCallsAppend(KeepMessages(before, known), if KeepsResult(m, known) then [m] else []);
      assert AllCalls([m]) == CallsOf(m) + AllCalls([]);
    }
  }

  lemma SanitizedCalls(messages: seq<Message>)
    ensures AllCalls(Sanitized(messages)) == KeepCalls(AllCalls(messages))
  {
    CleanCalls(messages);
    KeepMessagesCalls(CleanMessages(messages), Ids(AllCalls(messages)));
  }

  /** With nothing nameless in it, a history is left as it is. */
  lemma {:induction false} NothingToClean(messages: seq<Message>)
    requires KeepCalls(AllCalls(messages)) == AllCalls(messages)
    ensures CleanMessages(messages) == messages
  {
    if messages != [] {
      var m := messages[0];
      KeepCallsAppend(CallsOf(m), AllCalls(messages[1..]));
      KeepCallsShorter(CallsOf(m));
      KeepCallsShorter(AllCalls(messages[1..]));
      NothingToClean(messages[1..]);
      assert CleanMessages(messages) == [CleanMessage(m)] + CleanMessages(messages[1..]);
    }
  }

  /** Sanitizing is the identity on every body the validator accepts, and doing it twice is doing it once. */
  lemma SanitizerIdentityAndIdempotent(messages: seq<Message>)
    ensures Check(messages) == None ==> Nameless(messages) == 0
    ensures Nameless(messages) == 0 ==> Sanitized(messages) == messages
    ensures Sanitized(Sanitized(messages)) == Sanitized(messages)
  {
    ValidatorExact(messages);
    var calls := AllCalls(messages);
    KeepCallsShorter(calls);
    KeepCallsIds(calls);
    if Nameless(messages) == 0 {
      NothingToClean(messages);
    }
    SanitizedCalls(messages);
    KeepCallsIds(KeepCalls(calls));
    KeepCallsShorter(KeepCalls(calls));
    NothingToClean(Sanitized(messages));
  }

  /**
   * If a call was dropped, the validator cannot miss an id any more. It still can where nothing was dropped, and
   * then for want of an id on a tool result.
   */
  lemma SanitizedLacksNoId(messages: seq<Message>)
    requires Check(Sanitized(messages)).Some? && Check(Sanitized(messages)).value.code == MissingToolCallId
    ensures Nameless(messages) == 0
    ensures exists m :: m in messages && m.role == "tool" && !Truthy(m.toolCallId)
  {
    var after := Sanitized(messages);
    var i := Check(after).value.index;
    ProblemIsReal(after);
    SanitizedCalls(messages);
    KeepCallsIds(AllCalls(messages));
    CallsAt(after, i);
    KeepMessagesCalls(CleanMessages(messages), Ids(AllCalls(messages)));
    assert after[i].role == "tool" && !Truthy(after[i].toolCallId);
    assert after[i] in after;
    assert after == CleanMessages(messages);
    assert messages[i] in messages;
  }

  /** A tool result that the sanitizer leaves in place. */
  predicate Stays(messages: seq<Message>, m: Message) {
    m.role == "tool" && (Nameless(messages) == 0 || KeepsResult(m, Ids(AllCalls(messages))))
  }

  predicate ResultsFollow(messages: seq<Message>) {
    forall i :: 0 <= i < |messages| && Stays(messages, messages[i]) ==>
      Truthy(messages[i].toolCallId) && messages[i].toolCallId.value in Ids(AllCalls(messages[..i]))
  }

  /**
   * A sanitized history is acceptable exactly when the original calls that have an id have names and different ids,
   * and every tool result that stays comes after its call.
   */
  lemma SanitizerFitsValidator(messages: seq<Message>)
    ensures Check(Sanitized(messages)) == None
       <==> CallsAccepted(KeepCalls(AllCalls(messages))) && ResultsFollow(messages)
  {
    hide CallsAccepted, KeepCalls, AllCalls, Ids;
    ValidatorExact(Sanitized(messages));
    SanitizedCalls(messages);
    if Nameless(messages) == 0 {
      SanitizerIdentityAndIdempotent(messages);
    } else {
      KeptResultsFollow(messages, Ids(AllCalls(messages)));
    }
  }

  /** The results among these messages that are known come after their calls. */
  predicate KnownFollow(messages: seq<Message>, known: set<string>) {
    forall i :: 0 <= i < |messages| && messages[i].role == "tool" && KeepsResult(messages[i], known) ==>
      messages[i].toolCallId.value in Ids(AllCalls(messages[..i]))
  }

  lemma KnownFollowSnoc(before: seq<Message>, m: Message, known: set<string>)
    ensures KnownFollow(before + [m], known) <==>
      KnownFollow(before, known)
      && (m.role == "tool" && KeepsResult(m, known) ==> m.toolCallId.value in Ids(AllCalls(before)))
  {
    var messages := before + [m];
    forall i | 0 <= i < |before|
      ensures messages[i] == before[i] && messages[..i] == before[..i]
    {
    }
    assert messages[|before|] == m && messages[..|before|] == before;
  }

  lemma {:induction false} KeptResultsFollow(messages: seq<Message>, known: set<string>)
    ensures ResultsAccepted(KeepMessages(CleanMessages(messages), known)) <==> KnownFollow(messages, known)
  {
    if messages != [] {
      var before := Init(messages);
      KeptResultsFollow(before, known);
      KeptStep(before, Last(messages), known);
      assert messages == before + [Last(messages)];
    }
  }

  lemma KeptStep(before: seq<Message>, m: Message, known: set<string>)
    requires ResultsAccepted(KeepMessages(CleanMessages(before), known)) <==> KnownFollow(before, known)
    ensures ResultsAccepted(KeepMessages(CleanMessages(before + [m]), known)) <==> KnownFollow(before + [m], known)
  {
    hide *;
    KnownFollowSnoc(before, m, known);
    KeptSnoc(before, m, known);
    if KeepsResult(m, known) {
      CleanedResult(m, known);
      ResultsSnoc(KeepMessages(CleanMessages(before), known), CleanMessage(m));
    }
  }

  lemma CleanedResult(m: Message, known: set<string>)
    requires KeepsResult(m, known)
    ensures CleanMessage(m).role == m.role && CleanMessage(m).toolCallId == m.toolCallId
    ensures m.role == "tool" ==> Truthy(m.toolCallId)
  {
  }

  lemma KeptSnoc(before: seq<Message>, m: Message, known: set<string>)
    ensures var kept, after := KeepMessages(CleanMessages(before), known), KeepMessages(CleanMessages(before + [m]), known);
      after == if KeepsResult(m, known) then kept + [CleanMessage(m)] else kept
    ensures Ids(AllCalls(KeepMessages(CleanMessages(before), known))) == Ids(AllCalls(before))
  {
    hide KeepCalls, AllCalls, Ids;
    assert Init(CleanMessages(before + [m])) == CleanMessages(before);
    KeepMessagesCalls(CleanMessages(before), known);
    CleanCalls(before);
    KeepCallsIds(AllCalls(before));
  }

  lemma {:induction false} CallsAt(messages: seq<Message>, i: nat)
    requires i < |messages|
    ensures forall call :: call in CallsOf(messages[i]) ==> call in AllCalls(messages)
  {
    if i > 0 {
      CallsAt(messages[1..], i - 1);
    }
  }

  /** Filtering keeps order: the positions of the kept messages increase. */
  function Positions(messages: seq<Message>, known: set<string>): (at: seq<nat>)
    ensures |at| == |KeepMessages(messages, known)|
    ensures forall k :: 0 <= k < |at| ==> at[k] < |messages| && KeepMessages(messages, known)[k] == messages[at[k]]
    ensures forall j, k :: 0 <= j < k < |at| ==> at[j] < at[k]
  {
    if messages == [] then []
    else Positions(Init(messages), known) + if KeepsResult(Last(messages), known) then [|messages| - 1] else []
  }

  /** And no others are kept. */
  lemma {:induction false} PositionsCover(messages: seq<Message>, known: set<string>, i: nat)
    requires i < |messages|
    ensures KeepsResult(messages[i], known) <==> i in Positions(messages, known)
  {
    hide KeepsResult, KeepMessages;
    var before := Positions(Init(messages), known);
    if i < |messages| - 1 {
      PositionsCover(Init(messages), known, i);
    } else {
      assert forall k :: 0 <= k < |before| ==> before[k] != i;
    }
  }
}
