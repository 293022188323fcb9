/** What the chat sanitizer and validator do, in the words of the request format. */
module ChatLaws {
  import opened Options
  import opened Text
  import opened ToolMetadata
  import opened ChatHistory

  predicate HasId(call: ToolCall) {
    call.id.Some? && call.id.value != ""
  }

  /** The name has a character that is no white space. */
  predicate HasName(call: ToolCall) {
    call.name.Some? && exists i :: 0 <= i < |call.name.value| && !IsSpace(call.name.value[i])
  }

  /** The calls of the model: those of an assistant message. */
  function CallsIn(m: Message): seq<ToolCall> {
    if m.role == "assistant" && m.toolCalls.Some? then m.toolCalls.value else []
  }

  /** One of the first `n` messages has a call with this id. */
  ghost predicate Called(messages: seq<Message>, n: nat, id: string) {
    exists i, k :: 0 <= i < n && i < |messages| && 0 <= k < |CallsIn(messages[i])| && CallsIn(messages[i])[k].id == Some(id)
  }

  predicate IdBefore(calls: seq<ToolCall>, k: nat, id: string) {
    exists j :: 0 <= j < k && j < |calls| && calls[j].id == Some(id)
  }

  /** A call with an id that is new, in earlier messages and earlier in its own, and a name. */
  ghost predicate CallFits(messages: seq<Message>, n: nat, k: nat)
    requires n < |messages| && k < |CallsIn(messages[n])|
  {
    var call := CallsIn(messages[n])[k];
    HasId(call) && !Called(messages, n, call.id.value) && !IdBefore(CallsIn(messages[n]), k, call.id.value) && HasName(call)
  }

  /** A tool result has the id of a call of an earlier message. */
  ghost predicate ResultFits(messages: seq<Message>, n: nat)
    requires n < |messages|
  {
    messages[n].role == "tool" ==>
      messages[n].toolCallId.Some? && messages[n].toolCallId.value != "" && Called(messages, n, messages[n].toolCallId.value)
  }

  ghost predicate MessageFits(messages: seq<Message>, n: nat)
    requires n < |messages|
  {
    (forall k :: 0 <= k < |CallsIn(messages[n])| ==> CallFits(messages, n, k)) && ResultFits(messages, n)
  }

  ghost predicate Acceptable(messages: seq<Message>) {
    forall n :: 0 <= n < |messages| ==> MessageFits(messages, n)
  }

  // ----- names and ids -----

  lemma NamedMeans(call: ToolCall)
    ensures Named(call) <==> HasName(call)
  {
    hide IsSpace;
    if call.name.Some? {
      TrimmedAway(call.name.value);
    }
  }

  lemma {:induction false} IdsAre(calls: seq<ToolCall>, id: string)
    requires id != ""
    ensures id in Ids(calls) <==> IdBefore(calls, |calls|, id)
  {
    if k :| 0 <= k < |calls| && calls[k].id == Some(id) {
      assert Truthy(calls[k].id);
    }
  }

  lemma CalledSnoc(before: seq<Message>, m: Message, id: string)
    ensures Called(before + [m], |before| + 1, id) <==> Called(before, |before|, id) || IdBefore(CallsIn(m), |CallsIn(m)|, id)
  {
    var messages := before + [m];
    if Called(before, |before|, id) {
      var i, k :| 0 <= i < |before| && 0 <= k < |CallsIn(before[i])| && CallsIn(before[i])[k].id == Some(id);
      assert messages[i] == before[i];
    }
    if IdBefore(CallsIn(m), |CallsIn(m)|, id) {
      assert messages[|before|] == m;
    }
  }

  /** The first messages of a longer history are those of the shorter one. */
  lemma CalledPrefix(before: seq<Message>, messages: seq<Message>, n: nat, id: string)
    requires n <= |before| <= |messages| && messages[..|before|] == before
    ensures Called(before, n, id) <==> Called(messages, n, id)
  {
    assert forall i :: 0 <= i < |before| ==> before[i] == messages[i];
  }

  lemma {:induction false} CalledIs(messages: seq<Message>, id: string)
    requires id != ""
    ensures id in Ids(AllCalls(messages)) <==> Called(messages, |messages|, id)
  {
    hide Ids, AllCalls, CallsIn, IdBefore, Called;
    if messages == [] {
      NoIds();
      NoneCalled(id);
    } else {
      var before, m := Init(messages), Last(messages);
      CalledIs(before, id);
      assert messages == before + [m];
      CallsSnoc(before, m);
      IdsAppend(AllCalls(before), CallsOf(m));
      IdsAre(CallsOf(m), id);
      SameCalls(m);
      CalledSnoc(before, m, id);
    }
  }

  lemma NoneCalled(id: string)
    ensures !Called([], 0, id)
  {
  }

  lemma SameCalls(m: Message)
    ensures CallsOf(m) == CallsIn(m)
  {
  }

  lemma CallsSnoc(before: seq<Message>, m: Message)
    ensures AllCalls(before + [m]) == AllCalls(before) + CallsOf(m)
  {
    AllCallsAppend(before, [m]);
    assert AllCalls([m]) == CallsOf(m) + AllCalls([]);
  }

  // ----- the validator -----

  /** These calls fit from the first on, up to `n`, after those with these ids. */
  ghost predicate FitAfter(calls: seq<ToolCall>, seen: set<string>, n: nat) {
    forall k :: 0 <= k < n && k < |calls| ==> FitsAfter(calls, seen, k)
  }

  ghost predicate FitsAfter(calls: seq<ToolCall>, seen: set<string>, k: nat)
    requires k < |calls|
  {
    HasId(calls[k]) && calls[k].id.value !in seen && !IdBefore(calls, k, calls[k].id.value) && HasName(calls[k])
  }

  /** The first call that does not fit decides, and among its faults the first of these. */
  ghost predicate FaultIs(calls: seq<ToolCall>, seen: set<string>, k: nat, code: Code)
    requires k < |calls|
  {
    var call := calls[k];
    if !HasId(call) then code == MissingToolCallId
    else if call.id.value in seen || IdBefore(calls, k, call.id.value) then code == DuplicateToolCallId
    else !HasName(call) && code == EmptyToolName
  }

  ghost predicate CallsVerdict(calls: seq<ToolCall>, seen: set<string>, verdict: Option<Code>) {
    match verdict
    case None => FitAfter(calls, seen, |calls|)
    case Some(code) => exists k :: 0 <= k < |calls| && FitAfter(calls, seen, k) && FaultIs(calls, seen, k, code)
  }

  lemma FitsShift(calls: seq<ToolCall>, seen: set<string>, k: nat)
    requires calls != [] && k < |calls[1..]| && HasId(calls[0])
    ensures HasId(calls[k + 1]) ==>
              (calls[k + 1].id.value in seen || IdBefore(calls, k + 1, calls[k + 1].id.value)
               <==> calls[k + 1].id.value in seen + {calls[0].id.value} || IdBefore(calls[1..], k, calls[k + 1].id.value))
  {
    if HasId(calls[k + 1]) {
      var id := calls[k + 1].id.value;
      if j :| 0 <= j < k + 1 && calls[j].id == Some(id) {
        if j > 0 {
          assert calls[1..][j - 1].id == Some(id);
        }
      }
      if j :| 0 <= j < k && calls[1..][j].id == Some(id) {
        assert calls[j + 1].id == Some(id);
      }
    }
  }

  lemma {:induction false} CheckCallsMeans(calls: seq<ToolCall>, seen: set<string>)
    ensures CallsVerdict(calls, seen, CheckCalls(calls, seen))
  {
    hide HasName, Named, IdBefore;
    if calls != [] {
      NamedMeans(calls[0]);
      NoneBefore(calls, calls[0].id.GetOr(""));
      if FitsAfter(calls, seen, 0) {
        var seen' := seen + {calls[0].id.value};
        CheckCallsMeans(calls[1..], seen');
        VerdictShifts(calls, seen, CheckCalls(calls[1..], seen'));
      } else {
        assert FitAfter(calls, seen, 0) && FaultIs(calls, seen, 0, CheckCalls(calls, seen).value);
      }
    }
  }

  lemma NoneBefore(calls: seq<ToolCall>, id: string)
    ensures !IdBefore(calls, 0, id)
  {
  }

  lemma ShiftsAt(calls: seq<ToolCall>, seen: set<string>, k: nat, code: Code)
    requires calls != [] && HasId(calls[0]) && k < |calls[1..]|
    ensures FitsAfter(calls[1..], seen + {calls[0].id.value}, k) <==> FitsAfter(calls, seen, k + 1)
    ensures FaultIs(calls[1..], seen + {calls[0].id.value}, k, code) <==> FaultIs(calls, seen, k + 1, code)
  {
    hide HasName, IdBefore;
    assert calls[1..][k] == calls[k + 1];
    FitsShift(calls, seen, k);
  }

  lemma FitShifts(calls: seq<ToolCall>, seen: set<string>, n: nat)
    requires calls != [] && FitsAfter(calls, seen, 0) && n <= |calls[1..]|
    requires FitAfter(calls[1..], seen + {calls[0].id.value}, n)
    ensures FitAfter(calls, seen, n + 1)
  {
    hide FitsAfter;
    assert HasId(calls[0]) by {
      FitsId(calls, seen);
    }
    forall k | 0 <= k < n + 1 ensures FitsAfter(calls, seen, k) {
      if k > 0 {
        ShiftsAt(calls, seen, k - 1, MissingToolCallId);
      }
    }
  }

  lemma FitsId(calls: seq<ToolCall>, seen: set<string>)
    requires calls != [] && FitsAfter(calls, seen, 0)
    ensures HasId(calls[0])
  {
  }

  lemma VerdictShifts(calls: seq<ToolCall>, seen: set<string>, verdict: Option<Code>)
    requires calls != [] && FitsAfter(calls, seen, 0)
    requires CallsVerdict(calls[1..], seen + {calls[0].id.value}, verdict)
    ensures CallsVerdict(calls, seen, verdict)
  {
    hide FitAfter, FaultIs, FitsAfter;
    FitsId(calls, seen);
    var seen' := seen + {calls[0].id.value};
    match verdict
    case None => FitShifts(calls, seen, |calls[1..]|);
    case Some(code) =>
      var k :| 0 <= k < |calls[1..]| && FitAfter(calls[1..], seen', k) && FaultIs(calls[1..], seen', k, code);
      FitShifts(calls, seen, k);
      ShiftsAt(calls, seen, k, code);
  }

  /** What a rejection says about the first message that does not fit. */
  ghost predicate ProblemIs(messages: seq<Message>, n: nat, code: Code)
    requires n < |messages|
  {
    if exists k :: 0 <= k < |CallsIn(messages[n])| && !CallFits(messages, n, k) then
      exists k :: 0 <= k < |CallsIn(messages[n])| && CallFault(messages, n, k, code)
    else !ResultFits(messages, n)
         && code == if messages[n].toolCallId in [None, Some("")] then MissingToolCallId else OrphanedOutput
  }

  /** Call `k` is the first that does not fit, for want of an id, because its id is not new, or for want of a name. */
  ghost predicate CallFault(messages: seq<Message>, n: nat, k: nat, code: Code)
    requires n < |messages| && k < |CallsIn(messages[n])|
  {
    var calls := CallsIn(messages[n]);
    && (forall j :: 0 <= j < k ==> CallFits(messages, n, j))
    && if !HasId(calls[k]) then code == MissingToolCallId
       else if Called(messages, n, calls[k].id.value) || IdBefore(calls, k, calls[k].id.value) then code == DuplicateToolCallId
       else !HasName(calls[k]) && code == EmptyToolName
  }

  /** Fitting after the ids of the earlier messages is fitting in the message. */
  lemma FitsInMessage(messages: seq<Message>, n: nat, k: nat, code: Code)
    requires n < |messages| && k < |CallsIn(messages[n])|
    ensures var calls, seen := CallsIn(messages[n]), Ids(AllCalls(messages[..n]));
      && (FitsAfter(calls, seen, k) <==> CallFits(messages, n, k))
      && (FaultIs(calls, seen, k, code) <==>
            if !HasId(calls[k]) then code == MissingToolCallId
            else if Called(messages, n, calls[k].id.value) || IdBefore(calls, k, calls[k].id.value) then code == DuplicateToolCallId
            else !HasName(calls[k]) && code == EmptyToolName)
  {
    hide AllCalls, Ids, Called, IdBefore, HasName, CallsIn;
    var call := CallsIn(messages[n])[k];
    if HasId(call) {
      CalledIs(messages[..n], call.id.value);
      CalledPrefix(messages[..n], messages, n, call.id.value);
    }
  }

  lemma MessageVerdict(messages: seq<Message>, n: nat)
    requires n < |messages|
    ensures var verdict := CheckMessage(messages[n], Ids(AllCalls(messages[..n])));
      && (verdict == None <==> MessageFits(messages, n))
      && (verdict.Some? ==> ProblemIs(messages, n, verdict.value))
  {
    hide AllCalls, Ids, Called, CallsIn, CheckCalls, FitAfter, FitsAfter, FaultIs, CallFits, ResultFits;
    var m, seen := messages[n], Ids(AllCalls(messages[..n]));
    SameCalls(m);
    CheckCallsMeans(CallsIn(m), seen);
    match CheckCalls(CallsIn(m), seen)
    case None =>
      AllFit(messages, n);
      ResultVerdict(messages, n);
    case Some(code) =>
      var k :| 0 <= k < |CallsIn(m)| && FitAfter(CallsIn(m), seen, k) && FaultIs(CallsIn(m), seen, k, code);
      FirstFault(messages, n, k, code);
  }

  lemma AllFit(messages: seq<Message>, n: nat)
    requires n < |messages| && FitAfter(CallsIn(messages[n]), Ids(AllCalls(messages[..n])), |CallsIn(messages[n])|)
    ensures forall k :: 0 <= k < |CallsIn(messages[n])| ==> CallFits(messages, n, k)
  {
    hide AllCalls, Ids, FitsAfter, CallFits, CallsIn;
    forall k | 0 <= k < |CallsIn(messages[n])| ensures CallFits(messages, n, k) {
      FitsInMessage(messages, n, k, MissingToolCallId);
    }
  }

  lemma FirstFault(messages: seq<Message>, n: nat, k: nat, code: Code)
    requires n < |messages| && k < |CallsIn(messages[n])|
    requires var calls, seen := CallsIn(messages[n]), Ids(AllCalls(messages[..n]));
      FitAfter(calls, seen, k) && FaultIs(calls, seen, k, code)
    ensures CallFault(messages, n, k, code) && !CallFits(messages, n, k)
  {
    hide AllCalls, Ids, FitsAfter, FaultIs, Called, IdBefore, CallsIn, HasName;
    FitsInMessage(messages, n, k, code);
    forall j | 0 <= j < k ensures CallFits(messages, n, j) {
      FitsInMessage(messages, n, j, code);
    }
  }

  lemma ResultVerdict(messages: seq<Message>, n: nat)
    requires n < |messages|
    ensures var code := CheckResult(messages[n], Ids(AllCalls(messages[..n])) + Ids(CallsOf(messages[n])));
      && (code == None <==> ResultFits(messages, n))
      && (code.Some? ==> code.value == if messages[n].toolCallId in [None, Some("")] then MissingToolCallId else OrphanedOutput)
  {
    hide AllCalls, Called;
    var m := messages[n];
    if m.role == "tool" && Truthy(m.toolCallId) {
      CalledIs(messages[..n], m.toolCallId.value);
      CalledPrefix(messages[..n], messages, n, m.toolCallId.value);
      assert CallsOf(m) == [] && Ids([]) == {};
    }
  }

  /**
   * The validator accepts a history exactly when every call has an id that is new and a name, and every tool result
   * the id of a call of an earlier message; else it names the first message for which this does not hold, and why.
   */
  lemma {:induction false} ValidatorMeans(messages: seq<Message>)
    ensures Check(messages) == None <==> Acceptable(messages)
    ensures Check(messages).Some? ==>
              var problem := Check(messages).value;
              && problem.index < |messages| && ProblemIs(messages, problem.index, problem.code)
              && !MessageFits(messages, problem.index) && forall i :: 0 <= i < problem.index ==> MessageFits(messages, i)
  {
    hide CheckMessage, MessageFits, ProblemIs, AllCalls, Ids;
    if messages != [] {
      var n := |messages| - 1;
      ValidatorMeans(Init(messages));
      MessageVerdict(messages, n);
      forall i | 0 <= i < n ensures MessageFits(Init(messages), i) <==> MessageFits(messages, i)
      {
        PrefixFits(messages, i, MissingToolCallId);
      }
      if Check(Init(messages)).Some? {
        PrefixFits(messages, Check(Init(messages)).value.index, Check(Init(messages)).value.code);
      }
    }
  }

  lemma PrefixFits(messages: seq<Message>, i: nat, code: Code)
    requires i < |messages| - 1
    ensures MessageFits(Init(messages), i) <==> MessageFits(messages, i)
    ensures ProblemIs(Init(messages), i, code) <==> ProblemIs(messages, i, code)
  {
    hide CallsIn, CallFits, CallFault, ResultFits;
    var before := Init(messages);
    assert before[i] == messages[i];
    PrefixResult(messages, i);
    forall k | 0 <= k < |CallsIn(messages[i])|
      ensures CallFits(before, i, k) <==> CallFits(messages, i, k)
      ensures CallFault(before, i, k, code) <==> CallFault(messages, i, k, code)
    {
      PrefixCall(messages, i, k);
      PrefixFault(messages, i, k, code);
    }
  }

  lemma PrefixResult(messages: seq<Message>, i: nat)
    requires i < |messages| - 1
    ensures ResultFits(Init(messages), i) <==> ResultFits(messages, i)
  {
    hide Called;
    if messages[i].toolCallId.Some? {
      CalledPrefix(Init(messages), messages, i, messages[i].toolCallId.value);
    }
  }

  lemma PrefixCall(messages: seq<Message>, i: nat, k: nat)
    requires i < |messages| - 1 && k < |CallsIn(messages[i])|
    ensures CallFits(Init(messages), i, k) <==> CallFits(messages, i, k)
    ensures CallsIn(messages[i])[k].id.Some? ==>
              (Called(Init(messages), i, CallsIn(messages[i])[k].id.value) <==> Called(messages, i, CallsIn(messages[i])[k].id.value))
  {
    hide Called, CallsIn, HasName, IdBefore;
    if CallsIn(messages[i])[k].id.Some? {
      CalledPrefix(Init(messages), messages, i, CallsIn(messages[i])[k].id.value);
    }
  }

  lemma PrefixFault(messages: seq<Message>, i: nat, k: nat, code: Code)
    requires i < |messages| - 1 && k < |CallsIn(messages[i])|
    ensures CallFault(Init(messages), i, k, code) <==> CallFault(messages, i, k, code)
  {
    hide Called, CallsIn, HasName, IdBefore, CallFits;
    PrefixCall(messages, i, k);
    forall j | 0 <= j < k ensures CallFits(Init(messages), i, j) <==> CallFits(messages, i, j) {
      PrefixCall(messages, i, j);
    }
  }

  // ----- the sanitizer -----

  ghost predicate LacksAnId(m: Message) {
    exists k :: 0 <= k < |CallsIn(m)| && !HasId(CallsIn(m)[k])
  }

  /** The calls that have an id, in order. */
  function WithIds(calls: seq<ToolCall>): seq<ToolCall> {
    if calls == [] then [] else WithIds(Init(calls)) + if HasId(Last(calls)) then [Last(calls)] else []
  }

  /** A message without its calls that lack an id; the list goes too if none is left. */
  ghost predicate Cleaned(before: Message, after: Message) {
    if LacksAnId(before) then
      && after == before.(toolCalls := after.toolCalls)
      && (WithIds(CallsIn(before)) == [] ==> after.toolCalls == None)
      && (WithIds(CallsIn(before)) != [] ==> after.toolCalls == Some(WithIds(CallsIn(before))))
    else after == before
  }

  /** Not a tool result, or one whose call has an id and is somewhere in the history. */
  ghost predicate Remains(messages: seq<Message>, m: Message) {
    m.role != "tool" || (m.toolCallId.Some? && m.toolCallId.value != "" && Called(messages, |messages|, m.toolCallId.value))
  }

  lemma {:induction false} KeptAre(calls: seq<ToolCall>)
    ensures KeepCalls(calls) == WithIds(calls)
  {
    if calls != [] {
      KeptAre(Init(calls));
      KeepCallsAppend(Init(calls), [Last(calls)]);
      assert calls == Init(calls) + [Last(calls)];
      assert [Last(calls)][1..] == [] && KeepCalls([Last(calls)]) == (if HasId(Last(calls)) then [Last(calls)] else []) + [];
    }
  }

  lemma {:induction false} AllKept(calls: seq<ToolCall>)
    ensures |KeepCalls(calls)| == |calls| <==> forall k :: 0 <= k < |calls| ==> HasId(calls[k])
  {
    if calls != [] {
      AllKept(calls[1..]);
      KeepCallsShorter(calls[1..]);
      assert forall k :: 0 < k < |calls| ==> calls[k] == calls[1..][k - 1];
      assert forall k :: 0 <= k < |calls[1..]| ==> calls[1..][k] == calls[k + 1];
    }
  }

  lemma CleanMeans(m: Message)
    ensures Cleaned(m, CleanMessage(m))
    ensures CallsIn(m) != KeepCalls(CallsIn(m)) <==> LacksAnId(m)
  {
    hide KeepCalls, WithIds, HasId;
    SameCalls(m);
    KeptAre(CallsIn(m));
    AllKept(CallsIn(m));
    KeepCallsShorter(CallsIn(m));
  }

  lemma NothingNameless()
    ensures Nameless([]) == 0
  {
    assert AllCalls([]) == [] && KeepCalls([]) == [];
  }

  lemma {:induction false} NamelessMeans(messages: seq<Message>)
    ensures Nameless(messages) == 0 <==> forall i :: 0 <= i < |messages| ==> !LacksAnId(messages[i])
  {
    hide LacksAnId, KeepCalls, CallsIn;
    if messages == [] {
      NothingNameless();
    } else {
      var n := |messages| - 1;
      NamelessMeans(messages[..n]);
      NextMessage(messages, n);
      assert messages[..n + 1] == messages;
      CleanMeans(messages[n]);
      SameCalls(messages[n]);
      KeepCallsShorter(CallsOf(messages[n]));
      assert forall i :: 0 <= i < n ==> messages[i] == messages[..n][i];
    }
  }

  /**
   * A history in which every call has an id stays as it is. From any other the sanitizer takes the calls without an
   * id, and the tool results whose call is not among the others; all else stays, in order.
   */
  lemma SanitizerMeans(messages: seq<Message>) returns (at: seq<nat>)
    ensures (forall i :: 0 <= i < |messages| ==> !LacksAnId(messages[i])) ==> Sanitized(messages) == messages
    ensures (exists i :: 0 <= i < |messages| && LacksAnId(messages[i])) ==>
      && |at| == |Sanitized(messages)| && (forall j, k :: 0 <= j < k < |at| ==> at[j] < at[k])
      && (forall k :: 0 <= k < |at| ==> at[k] < |messages| && Cleaned(messages[at[k]], Sanitized(messages)[k]))
      && (forall i :: 0 <= i < |messages| ==> (i in at <==> Remains(messages, messages[i])))
  {
    hide LacksAnId, Cleaned, Remains, Ids, AllCalls, KeepMessages, CleanMessage, Nameless;
    NamelessMeans(messages);
    SanitizerIdentityAndIdempotent(messages);
    var clean, known := CleanMessages(messages), Ids(AllCalls(messages));
    at := Positions(clean, known);
    forall i | 0 <= i < |messages|
      ensures Cleaned(messages[i], clean[i]) && (i in at <==> Remains(messages, messages[i]))
    {
      CleanMeans(messages[i]);
      PositionsCover(clean, known, i);
      RemainsIs(messages, messages[i]);
    }
  }

  lemma RemainsIs(messages: seq<Message>, m: Message)
    ensures KeepsResult(CleanMessage(m), Ids(AllCalls(messages))) <==> Remains(messages, m)
  {
    hide Ids, AllCalls, Called, KeepCalls;
    if m.toolCallId.Some? && m.toolCallId.value != "" {
      CalledIs(messages, m.toolCallId.value);
    }
  }
}
