/** Re-injecting stored metadata into the replayed history, for each of the three request formats. */
module HistoryInjection {
  import opened Options
  import opened Text
  import opened Json
  import opened ToolMetadata
  import C = ChatHistory
  import R = ResponsesHistory

  // ----- arguments kept as text -----

  /** The text stands for a value that has no fields to look for, so that looking for one throws. */
  predicate Fieldless(text: string) {
    match Parse(text)
    case None => false
    case Some(Obj(_)) => false
    case Some(Arr(_)) => false
    case _ => true
  }

  /** The elements of an array as the fields `Object.assign` copies, which come before all others. */
  function IndexFields(items: seq<Json>): (r: Fields)
    ensures |r| == |items| && forall i :: 0 <= i < |r| ==> r[i] == Field(PrintNat(i), items[i])
  {
    if items == [] then [] else IndexFields(Init(items)) + [Field(PrintNat(|items| - 1), Last(items))]
  }

  /**
   * Arguments text with the stored metadata put back. An array to which something is added becomes an object; text
   * that does not parse, and an object or array that lacks nothing stored, stay. Where looking for the metadata
   * throws, the pass ends with the text as it was.
   */
  function InjectText(store: Store, toolId: string, text: string): string {
    match Parse(text)
    case Some(Obj(fields)) =>
      var injected := Reinject(store, toolId, fields);
      if injected == fields then text else Print(Obj(injected))
    case Some(Arr(items)) =>
      if toolId !in store || Missing(store[toolId], []) == [] then text
      else Print(Obj(IndexFields(items) + Missing(store[toolId], [])))
    case _ => text
  }

  lemma ReinjectWellFormed(store: Store, toolId: string, fields: Fields)
    requires WellFormed(Obj(fields))
    ensures WellFormed(Obj(Reinject(store, toolId, fields)))
  {
    if toolId in store {
      MergeWellFormed(Missing(store[toolId], fields), fields);
    }
  }

  /** The text that goes out stands for the re-injected object. */
  lemma InjectTextMeaning(store: Store, toolId: string, text: string, fields: Fields)
    requires Parse(text) == Some(Obj(fields))
    ensures Parse(InjectText(store, toolId, text)) == Some(Obj(Reinject(store, toolId, fields)))
  {
    assert WellFormed(Obj(fields));
    ReinjectWellFormed(store, toolId, fields);
    RoundTrip(Obj(Reinject(store, toolId, fields)));
  }

  lemma IndexKeys(items: seq<Json>, i: nat)
    requires i < |items|
    ensures IndexFields(items)[i].key[0] != '_'
    ensures forall j :: 0 <= j < i ==> IndexFields(items)[j].key != IndexFields(items)[i].key
  {
    hide PrintNat, DecimalValue;
    DecimalOfPrint(i);
    forall j | 0 <= j < i ensures IndexFields(items)[j].key != IndexFields(items)[i].key {
      DecimalOfPrint(j);
    }
  }

  lemma AssignedWellFormed(items: seq<Json>, extra: Fields)
    requires WellFormed(Arr(items)) && WellFormed(Obj(extra))
    requires forall i :: 0 <= i < |extra| ==> extra[i].key == INTENT || extra[i].key == DISPLAY_NAME
    ensures WellFormed(Obj(IndexFields(items) + extra))
  {
    var fields := IndexFields(items) + extra;
    forall i, j | 0 <= i < j < |fields| ensures fields[i].key != fields[j].key {
      if j < |items| {
        IndexKeys(items, j);
      } else if i < |items| {
        IndexKeys(items, i);
      } else {
        assert extra[i - |items|].key != extra[j - |items|].key;
      }
    }
  }

  /** An array of arguments to which stored metadata is added goes out as an object with the elements as numbered fields. */
  lemma ArraysBecomeObjects(store: Store, toolId: string, text: string, items: seq<Json>)
    requires Parse(text) == Some(Arr(items)) && toolId in store
    requires Truthy(store[toolId].intent) || Truthy(store[toolId].displayName)
    ensures Parse(InjectText(store, toolId, text)) == Some(Obj(IndexFields(items) + Missing(store[toolId], [])))
  {
    var extra := Missing(store[toolId], []);
    assert !Has([], INTENT) && !Has([], DISPLAY_NAME);
    assert WellFormed(Arr(items));
    AssignedWellFormed(items, extra);
    RoundTrip(Obj(IndexFields(items) + extra));
  }

  lemma NothingMissing(store: Store, toolId: string, items: seq<Json>)
    requires toolId in store
    ensures var fields := IndexFields(items) + Missing(store[toolId], []); Reinject(store, toolId, fields) == fields
  {
    hide Has, IndexFields;
    var extra := Missing(store[toolId], []);
    var fields := IndexFields(items) + extra;
    assert !Has([], INTENT) && !Has([], DISPLAY_NAME) by {
      HasNothing();
    }
    if Truthy(store[toolId].displayName) {
      assert extra[0].key == DISPLAY_NAME;
      HasAt(fields, |items|);
    }
    if Truthy(store[toolId].intent) {
      assert Last(extra).key == INTENT;
      HasAt(fields, |fields| - 1);
    }
    assert Missing(store[toolId], fields) == [];
  }

  lemma HasNothing()
    ensures !Has([], INTENT) && !Has([], DISPLAY_NAME)
  {
  }

  lemma HasAt(fields: Fields, i: nat)
    requires i < |fields|
    ensures Has(fields, fields[i].key)
  {
  }

  /** Injecting into a text twice is injecting into it once, character for character. */
  lemma InjectTextTwice(store: Store, toolId: string, text: string)
    ensures InjectText(store, toolId, InjectText(store, toolId, text)) == InjectText(store, toolId, text)
  {
    hide *;
    var parsed := Parse(text);
    if parsed.None? || !(parsed.value.Obj? || parsed.value.Arr?) {
      OtherTextStays(store, toolId, text);
    } else if parsed.value.Obj? {
      InjectObjectTwice(store, toolId, text, parsed.value.fields);
    } else {
      InjectArrayTwice(store, toolId, text, parsed.value.items);
    }
  }

  lemma OtherTextStays(store: Store, toolId: string, text: string)
    requires Parse(text).None? || !(Parse(text).value.Obj? || Parse(text).value.Arr?)
    ensures InjectText(store, toolId, text) == text
  {
    hide Parse;
  }

  lemma InjectObjectTwice(store: Store, toolId: string, text: string, fields: Fields)
    requires Parse(text) == Some(Obj(fields))
    ensures InjectText(store, toolId, InjectText(store, toolId, text)) == InjectText(store, toolId, text)
  {
    hide Parse, Print, Reinject, Missing;
    assert WellFormed(Obj(fields));
    InjectTextMeaning(store, toolId, text, fields);
    ReinjectTwice(store, toolId, fields);
  }

  lemma InjectArrayTwice(store: Store, toolId: string, text: string, items: seq<Json>)
    requires Parse(text) == Some(Arr(items))
    ensures InjectText(store, toolId, InjectText(store, toolId, text)) == InjectText(store, toolId, text)
  {
    if toolId in store && Missing(store[toolId], []) != [] {
      ArraysBecomeObjects(store, toolId, text, items);
      NothingMissing(store, toolId, items);
    }
  }

  /** An arguments text after injection: an object has its fields over the stored metadata, other texts but arrays stay. */
  ghost predicate TextInjected(store: Store, toolId: string, before: string, after: string) {
    match Parse(before)
    case Some(Obj(fields)) =>
      && (toolId !in store ==> after == before)
      && (toolId in store ==>
            && Parse(after).Some? && Parse(after).value.Obj?
            && AsMap(Parse(after).value.fields) == Stored(store[toolId]) + AsMap(fields))
    case Some(Arr(_)) => toolId !in store || !WorthKeeping(store[toolId]) ==> after == before
    case _ => after == before
  }

  lemma InjectTextMeans(store: Store, toolId: string, text: string)
    ensures TextInjected(store, toolId, text, InjectText(store, toolId, text))
  {
    hide AsMap, Stored, Reinject, Parse, Print;
    var parsed := Parse(text);
    if parsed.Some? && parsed.value.Obj? {
      var fields := parsed.value.fields;
      assert WellFormed(Obj(fields));
      InjectTextMeaning(store, toolId, text, fields);
      ReinjectMeaning(store, toolId, fields);
      NotStored(store, toolId, fields);
    } else if toolId in store {
      NothingStored(store, toolId);
    }
  }

  lemma NothingStored(store: Store, toolId: string)
    requires toolId in store
    ensures !WorthKeeping(store[toolId]) ==> Missing(store[toolId], []) == []
  {
  }

  /** Stripping a call's arguments on the way in and injecting on the way out gives the same map exactly when it can. */
  lemma StripThenInjectText(store: Store, toolId: string, text: string, fields: Fields)
    requires Parse(text) == Some(Obj(fields)) && toolId !in store
    ensures var back := Parse(InjectText(CaptureText(store, toolId, text), toolId, CleanText(text)));
      && back.Some? && back.value.Obj?
      && (AsMap(back.value.fields) == AsMap(fields) <==> Restorable(fields))
  {
    CleanTextMeaning(text, fields);
    InjectTextMeaning(CaptureText(store, toolId, text), toolId, CleanText(text), Clean(fields));
    StripThenReinject(store, toolId, fields);
  }

  // ----- Anthropic messages -----

  datatype ContentBlock = ContentBlock(kind: string, id: string, input: Option<Fields>, rest: Json)

  datatype AnthropicMessage = AnthropicMessage(role: string, content: Option<seq<ContentBlock>>)

  function InjectBlock(store: Store, b: ContentBlock): ContentBlock {
    if b.kind != "tool_use" || b.id == "" || b.input.None? then b
    else b.(input := Some(Reinject(store, b.id, b.input.value)))
  }

  function InjectBlocks(store: Store, blocks: seq<ContentBlock>): (r: seq<ContentBlock>)
    ensures |r| == |blocks| && forall i :: 0 <= i < |r| ==> r[i] == InjectBlock(store, blocks[i])
  {
    seq(|blocks|, i requires 0 <= i < |blocks| => InjectBlock(store, blocks[i]))
  }

  function InjectMessage(store: Store, m: AnthropicMessage): AnthropicMessage {
    if m.role != "assistant" || m.content.None? then m else m.(content := Some(InjectBlocks(store, m.content.value)))
  }

  /** A tool call of the model that the store knows has its arguments over the stored metadata; nothing else differs. */
  ghost predicate BlockInjected(store: Store, before: ContentBlock, after: ContentBlock) {
    if before.kind == "tool_use" && before.id != "" && before.input.Some? && before.id in store then
      && after.input.Some? && after == before.(input := after.input)
      && AsMap(after.input.value) == Stored(store[before.id]) + AsMap(before.input.value)
    else after == before
  }

  ghost predicate MessageInjected(store: Store, before: AnthropicMessage, after: AnthropicMessage) {
    if before.role == "assistant" && before.content.Some? then
      && after.content.Some? && after == before.(content := after.content)
      && |after.content.value| == |before.content.value|
      && forall j :: 0 <= j < |before.content.value| ==> BlockInjected(store, before.content.value[j], after.content.value[j])
    else after == before
  }

  /** Inputs are objects, which have no field twice. */
  predicate ObjectInputs(m: AnthropicMessage) {
    m.content.Some? ==> forall j :: 0 <= j < |m.content.value| && m.content.value[j].input.Some? ==> Distinct(m.content.value[j].input.value)
  }

  lemma InjectBlockMeans(store: Store, b: ContentBlock)
    requires b.input.Some? ==> Distinct(b.input.value)
    ensures BlockInjected(store, b, InjectBlock(store, b))
  {
    hide AsMap, Stored, Reinject;
    if b.input.Some? {
      ReinjectMeaning(store, b.id, b.input.value);
      NotStored(store, b.id, b.input.value);
    }
  }

  lemma NotStored(store: Store, toolId: string, fields: Fields)
    ensures toolId !in store ==> Reinject(store, toolId, fields) == fields
  {
  }

  lemma InjectMessageMeans(store: Store, m: AnthropicMessage)
    requires ObjectInputs(m)
    ensures MessageInjected(store, m, InjectMessage(store, m))
  {
    hide BlockInjected, InjectBlock, Distinct;
    if m.role == "assistant" && m.content.Some? {
      forall j | 0 <= j < |m.content.value|
        ensures BlockInjected(store, m.content.value[j], InjectBlock(store, m.content.value[j]))
      {
        InjectBlockMeans(store, m.content.value[j]);
      }
    }
  }

  class AnthropicBody {
    var messages: seq<AnthropicMessage>

    constructor (messages: seq<AnthropicMessage>)
      ensures this.messages == messages
    {
      this.messages := messages;
    }

    method InjectMetadata(store: Store)
      modifies this
      ensures |messages| == |old(messages)|
      ensures forall i :: 0 <= i < |messages| ==> messages[i] == InjectMessage(store, old(messages)[i])
      ensures forall i :: 0 <= i < |messages| && ObjectInputs(old(messages)[i]) ==>
                MessageInjected(store, old(messages)[i], messages[i])
    {
      hide MessageInjected, ObjectInputs;
      var i := 0;
      while i < |messages|
        invariant 0 <= i <= |messages| == |old(messages)|
        invariant forall k :: 0 <= k < i ==> messages[k] == InjectMessage(store, old(messages)[k])
        invariant forall k :: i <= k < |messages| ==> messages[k] == old(messages)[k]
      {
        var m := messages[i];
        if m.role == "assistant" && m.content.Some? {
          var blocks := InjectContent(store, m.content.value);
          messages := messages[i := m.(content := Some(blocks))];
        }
        i := i + 1;
      }
      forall k | 0 <= k < |messages| && ObjectInputs(old(messages)[k])
        ensures MessageInjected(store, old(messages)[k], messages[k])
      {
        InjectMessageMeans(store, old(messages)[k]);
      }
    }
  }

  method InjectContent(store: Store, content: seq<ContentBlock>) returns (blocks: seq<ContentBlock>)
    ensures blocks == InjectBlocks(store, content)
  {
    blocks := content;
    var i := 0;
    while i < |blocks|
      invariant 0 <= i <= |blocks| == |content|
      invariant forall k :: 0 <= k < i ==> blocks[k] == InjectBlock(store, content[k])
      invariant forall k :: i <= k < |blocks| ==> blocks[k] == content[k]
    {
      var b := blocks[i];
      if b.kind == "tool_use" && b.id != "" && b.input.Some? {
        var input := b.input.value;
        var hasIntent, hasDisplayName := Has(input, INTENT), Has(input, DISPLAY_NAME);
        if !(hasIntent && hasDisplayName) && b.id in store {
          var extra := Missing(store[b.id], input);
          if extra != [] {
            blocks := blocks[i := b.(input := Some(Merge(extra, input)))];
          }
        }
      }
      i := i + 1;
    }
  }

  lemma InjectMessageTwice(store: Store, m: AnthropicMessage)
    requires m.content.Some? ==>
      forall i :: 0 <= i < |m.content.value| && m.content.value[i].input.Some? ==> Distinct(m.content.value[i].input.value)
    ensures InjectMessage(store, InjectMessage(store, m)) == InjectMessage(store, m)
  {
    if m.role == "assistant" && m.content.Some? {
      var blocks := m.content.value;
      forall i | 0 <= i < |blocks|
        ensures InjectBlock(store, InjectBlock(store, blocks[i])) == InjectBlock(store, blocks[i])
      {
        if blocks[i].input.Some? {
          ReinjectTwice(store, blocks[i].id, blocks[i].input.value);
        }
      }
      assert InjectBlocks(store, InjectBlocks(store, blocks)) == InjectBlocks(store, blocks);
    }
  }

  // ----- Chat Completions messages -----

  function InjectCall(store: Store, call: C.ToolCall): C.ToolCall {
    if !Truthy(call.id) || !Truthy(call.arguments) then call
    else call.(arguments := Some(InjectText(store, call.id.value, call.arguments.value)))
  }

  function InjectCalls(store: Store, calls: seq<C.ToolCall>): (r: seq<C.ToolCall>)
    ensures |r| == |calls| && forall i :: 0 <= i < |r| ==> r[i] == InjectCall(store, calls[i])
  {
    seq(|calls|, i requires 0 <= i < |calls| => InjectCall(store, calls[i]))
  }

  function InjectChatMessage(store: Store, m: C.Message): C.Message {
    if C.HasCalls(m) then m.(toolCalls := Some(InjectCalls(store, m.toolCalls.value))) else m
  }

  function InjectChat(store: Store, messages: seq<C.Message>): (r: seq<C.Message>)
    ensures |r| == |messages| && forall i :: 0 <= i < |r| ==> r[i] == InjectChatMessage(store, messages[i])
  {
    seq(|messages|, i requires 0 <= i < |messages| => InjectChatMessage(store, messages[i]))
  }

  /** A call with an id and arguments has its arguments injected; nothing else differs. */
  ghost predicate CallInjected(store: Store, before: C.ToolCall, after: C.ToolCall) {
    if before.id.Some? && before.id.value != "" && before.arguments.Some? && before.arguments.value != "" then
      && after.arguments.Some? && after == before.(arguments := after.arguments)
      && TextInjected(store, before.id.value, before.arguments.value, after.arguments.value)
    else after == before
  }

  ghost predicate ChatInjected(store: Store, before: C.Message, after: C.Message) {
    if before.role == "assistant" && before.toolCalls.Some? then
      && after.toolCalls.Some? && after == before.(toolCalls := after.toolCalls)
      && |after.toolCalls.value| == |before.toolCalls.value|
      && forall j :: 0 <= j < |before.toolCalls.value| ==> CallInjected(store, before.toolCalls.value[j], after.toolCalls.value[j])
    else after == before
  }

  /** Injection into a chat history puts the stored metadata into the calls of its assistant messages, and nothing else. */
  lemma InjectChatMeans(store: Store, messages: seq<C.Message>, i: nat)
    requires i < |messages|
    ensures |InjectChat(store, messages)| == |messages| && ChatInjected(store, messages[i], InjectChat(store, messages)[i])
  {
    hide TextInjected, InjectText;
    var m := messages[i];
    if m.role == "assistant" && m.toolCalls.Some? {
      forall j | 0 <= j < |m.toolCalls.value|
        ensures CallInjected(store, m.toolCalls.value[j], InjectCall(store, m.toolCalls.value[j]))
      {
        var call := m.toolCalls.value[j];
        if Truthy(call.id) && Truthy(call.arguments) {
          InjectTextMeans(store, call.id.value, call.arguments.value);
        }
      }
    }
  }

  /** Looking for the metadata in the call's arguments throws. */
  predicate CallThrows(call: C.ToolCall) {
    Truthy(call.id) && Truthy(call.arguments) && Fieldless(call.arguments.value)
  }

  predicate ChatThrows(messages: seq<C.Message>) {
    exists call :: call in C.AllCalls(messages) && CallThrows(call)
  }

  predicate MessageThrows(m: C.Message) {
    exists i :: 0 <= i < |C.CallsOf(m)| && CallThrows(C.CallsOf(m)[i])
  }

  /** The calls up to the one that throws are injected, the others are not reached. */
  ghost predicate StoppedAmong(store: Store, before: seq<C.ToolCall>, after: seq<C.ToolCall>) {
    exists k :: 0 <= k < |before| && CallThrows(before[k]) && (forall i :: 0 <= i < k ==> !CallThrows(before[i]))
                && after == InjectCalls(store, before[..k]) + before[k..]
  }

  /** The same for the messages, in the one of which the pass stops among the calls. */
  ghost predicate StoppedAt(store: Store, before: seq<C.Message>, after: seq<C.Message>, k: nat) {
    && k < |before| == |after| && MessageThrows(before[k]) && (forall i :: 0 <= i < k ==> !MessageThrows(before[i]))
    && (forall i :: 0 <= i < k ==> after[i] == InjectChatMessage(store, before[i]))
    && (forall i :: k < i < |before| ==> after[i] == before[i])
    && after[k].toolCalls.Some? && after[k].(toolCalls := before[k].toolCalls) == before[k]
    && StoppedAmong(store, C.CallsOf(before[k]), after[k].toolCalls.value)
  }

  /**
   * Sanitize, then inject: what the chat adapter does to a replayed history. The pass throws exactly when a call
   * with an id has arguments without fields.
   */
  method InjectChatHistory(body: C.ChatBody, store: Store) returns (thrown: bool)
    modifies body
    ensures thrown <==> ChatThrows(old(body.messages))
    ensures !thrown ==> body.messages == InjectChat(store, C.Sanitized(old(body.messages)))
    ensures thrown ==> exists k: nat :: StoppedAt(store, C.Sanitized(old(body.messages)), body.messages, k)
  {
    hide C.Sanitized, Fieldless, InjectText, C.AllCalls, CallThrows, InjectCalls, ChatThrows, StoppedAmong;
    var droppedCalls, droppedResults := body.Sanitize();
    ghost var clean := body.messages;
    SanitizedThrows(old(body.messages));
    ThrowingMessages(clean);
    var i := 0;
    while i < |body.messages|
      invariant 0 <= i <= |body.messages| == |clean|
      invariant forall k :: 0 <= k < i ==> !MessageThrows(clean[k]) && body.messages[k] == InjectChatMessage(store, clean[k])
      invariant forall k :: i <= k < |clean| ==> body.messages[k] == clean[k]
    {
      var m := body.messages[i];
      if m.role == "assistant" && m.toolCalls.Some? {
        var calls, stopped := InjectToolCalls(store, m.toolCalls.value);
        body.messages := body.messages[i := m.(toolCalls := Some(calls))];
        if stopped {
          assert C.CallsOf(clean[i]) == m.toolCalls.value;
          assert StoppedAt(store, clean, body.messages, i);
          return true;
        }
      }
      i := i + 1;
    }
    thrown := false;
  }

  method InjectToolCalls(store: Store, toolCalls: seq<C.ToolCall>) returns (calls: seq<C.ToolCall>, thrown: bool)
    ensures thrown <==> exists i :: 0 <= i < |toolCalls| && CallThrows(toolCalls[i])
    ensures !thrown ==> calls == InjectCalls(store, toolCalls)
    ensures thrown ==> StoppedAmong(store, toolCalls, calls)
  {
    hide InjectText, Fieldless;
    calls := toolCalls;
    var i := 0;
    while i < |calls|
      invariant 0 <= i <= |calls| == |toolCalls|
      invariant forall k :: 0 <= k < i ==> !CallThrows(toolCalls[k]) && calls[k] == InjectCall(store, toolCalls[k])
      invariant forall k :: i <= k < |calls| ==> calls[k] == toolCalls[k]
    {
      var tc := calls[i];
      if Truthy(tc.id) && Truthy(tc.arguments) {
        if Fieldless(tc.arguments.value) {
          assert calls == InjectCalls(store, toolCalls[..i]) + toolCalls[i..];
          return calls, true;
        }
        calls := calls[i := tc.(arguments := Some(InjectText(store, tc.id.value, tc.arguments.value)))];
      }
      i := i + 1;
    }
    thrown := false;
  }

  lemma {:induction false} KeptCallsThrow(calls: seq<C.ToolCall>)
    ensures forall call :: CallThrows(call) ==> (call in C.KeepCalls(calls) <==> call in calls)
  {
    hide Fieldless;
    if calls != [] {
      KeptCallsThrow(calls[1..]);
      assert calls == [calls[0]] + calls[1..];
    }
  }

  /** Sanitizing drops no call that throws. */
  lemma SanitizedThrows(messages: seq<C.Message>)
    ensures ChatThrows(C.Sanitized(messages)) <==> ChatThrows(messages)
  {
    hide CallThrows;
    C.SanitizedCalls(messages);
    KeptCallsThrow(C.AllCalls(messages));
  }

  lemma {:induction false} ThrowingMessages(messages: seq<C.Message>)
    ensures ChatThrows(messages) <==> exists i :: 0 <= i < |messages| && MessageThrows(messages[i])
  {
    hide CallThrows;
    if messages != [] {
      ThrowingMessages(messages[1..]);
      assert messages == [messages[0]] + messages[1..];
      assert C.AllCalls(messages) == C.CallsOf(messages[0]) + C.AllCalls(messages[1..]);
      if i :| 0 <= i < |C.CallsOf(messages[0])| && CallThrows(C.CallsOf(messages[0])[i]) {
        assert C.CallsOf(messages[0])[i] in C.AllCalls(messages);
        assert MessageThrows(messages[0]);
      }
      if i :| 0 <= i < |messages[1..]| && MessageThrows(messages[1..][i]) {
        assert MessageThrows(messages[i + 1]);
      }
    }
  }

  lemma InjectCallsChecked(store: Store, calls: seq<C.ToolCall>, seen: set<string>)
    ensures C.CheckCalls(InjectCalls(store, calls), seen) == C.CheckCalls(calls, seen)
    ensures C.Ids(InjectCalls(store, calls)) == C.Ids(calls)
  {
    InjectCallsCheck(store, calls, seen);
    var injected := InjectCalls(store, calls);
    forall id | id in C.Ids(calls)
      ensures id in C.Ids(injected)
    {
      var i :| 0 <= i < |calls| && Truthy(calls[i].id) && calls[i].id.value == id;
      assert injected[i].id == calls[i].id;
    }
  }

  lemma {:induction false} InjectCallsCheck(store: Store, calls: seq<C.ToolCall>, seen: set<string>)
    ensures C.CheckCalls(InjectCalls(store, calls), seen) == C.CheckCalls(calls, seen)
    decreases |calls|
  {
    if calls != [] {
      assert InjectCalls(store, calls)[1..] == InjectCalls(store, calls[1..]);
      if Truthy(calls[0].id) {
        InjectCallsCheck(store, calls[1..], seen + {calls[0].id.value});
      }
    }
  }

  lemma {:induction false} InjectChatIds(store: Store, messages: seq<C.Message>)
    ensures C.AllCalls(InjectChat(store, messages)) == InjectCalls(store, C.AllCalls(messages))
  {
    assert messages == [] ==> InjectChat(store, messages) == [] && InjectCalls(store, []) == [];
    hide InjectText;
    if messages != [] {
      InjectChatIds(store, messages[1..]);
      assert InjectChat(store, messages)[1..] == InjectChat(store, messages[1..]);
    }
  }

  /** Injection never changes the validator's verdict. */
  lemma {:induction false} InjectChatKeepsVerdict(store: Store, messages: seq<C.Message>)
    ensures C.Check(InjectChat(store, messages)) == C.Check(messages)
  {
    assert messages == [] ==> InjectChat(store, messages) == [];
    hide C.AllCalls, C.CheckMessage, C.Ids, InjectChatMessage;
    if messages != [] {
      InjectChatKeepsVerdict(store, Init(messages));
      assert Init(InjectChat(store, messages)) == InjectChat(store, Init(messages));
      MessageKeepsVerdict(store, Init(messages), Last(messages));
    }
  }

  lemma MessageKeepsVerdict(store: Store, before: seq<C.Message>, m: C.Message)
    ensures C.CheckMessage(InjectChatMessage(store, m), C.Ids(C.AllCalls(InjectChat(store, before))))
         == C.CheckMessage(m, C.Ids(C.AllCalls(before)))
  {
    hide C.AllCalls, C.CheckCalls, C.Ids, InjectText, InjectCalls;
    InjectChatIds(store, before);
    InjectCallsChecked(store, C.AllCalls(before), {});
    InjectCallsChecked(store, C.CallsOf(m), C.Ids(C.AllCalls(before)));
  }

  // ----- Responses input -----

  function InjectEntry(store: Store, e: R.Entry): R.Entry {
    if R.IsCall(e) && e.callId.Some? && e.arguments.Some? then
      e.(arguments := Some(InjectText(store, e.callId.value, e.arguments.value)))
    else e
  }

  function InjectEntries(store: Store, input: seq<R.Entry>): (r: seq<R.Entry>)
    ensures |r| == |input| && forall i :: 0 <= i < |r| ==> r[i] == InjectEntry(store, input[i])
  {
    seq(|input|, i requires 0 <= i < |input| => InjectEntry(store, input[i]))
  }

  /** A function call with an id has its arguments injected; nothing else differs. */
  ghost predicate EntryInjected(store: Store, before: R.Entry, after: R.Entry) {
    if before.Entry? && before.kind == "function_call" && before.callId.Some? && before.arguments.Some? then
      && after.Entry? && after.arguments.Some? && after == before.(arguments := after.arguments)
      && TextInjected(store, before.callId.value, before.arguments.value, after.arguments.value)
    else after == before
  }

  /** Injection into a Responses history puts the stored metadata into its function calls, and nothing else. */
  lemma InjectEntriesMean(store: Store, input: seq<R.Entry>, i: nat)
    requires i < |input|
    ensures |InjectEntries(store, input)| == |input| && EntryInjected(store, input[i], InjectEntries(store, input)[i])
  {
    hide TextInjected, InjectText;
    var e := input[i];
    if e.Entry? && e.callId.Some? && e.arguments.Some? {
      InjectTextMeans(store, e.callId.value, e.arguments.value);
    }
  }

  /** Reading the element, or looking for the metadata in its arguments, throws. */
  predicate EntryThrows(e: R.Entry) {
    e.Missing? || (R.IsCall(e) && e.arguments.Some? && Fieldless(e.arguments.value))
  }

  predicate ResponsesThrows(input: seq<R.Entry>) {
    exists i :: 0 <= i < |input| && EntryThrows(input[i])
  }

  /** Which calls and which entries throw: those whose arguments parse to null, a truth value, a number or a string, and absent entries. */
  lemma WhichThrow(call: C.ToolCall, e: R.Entry)
    ensures CallThrows(call) <==>
      && call.id.Some? && call.id.value != "" && call.arguments.Some? && call.arguments.value != ""
      && var parsed := Parse(call.arguments.value);
         parsed.Some? && (parsed.value.Null? || parsed.value.Bool? || parsed.value.Num? || parsed.value.Str?)
    ensures EntryThrows(e) <==>
      e.Missing? || (e.kind == "function_call" && e.arguments.Some?
      && var parsed := Parse(e.arguments.value);
         parsed.Some? && (parsed.value.Null? || parsed.value.Bool? || parsed.value.Num? || parsed.value.Str?))
  {
    hide Parse;
  }

  /**
   * Repair, then inject. The pass throws exactly when an element is absent or a call has arguments without fields; it
   * then stops in the repair with nothing changed, or at the first such element with those before it injected.
   */
  method InjectResponsesHistory(body: R.Body, store: Store) returns (thrown: bool)
    modifies body
    ensures thrown <==> ResponsesThrows(old(body.input))
    ensures !thrown ==> body.input == InjectEntries(store, R.Repaired(old(body.input)))
    ensures thrown ==> body.input == old(body.input) || StoppedIn(store, R.Repaired(old(body.input)), body.input)
  {
    hide R.Repaired, Fieldless, InjectText;
    var outcome := body.Repair();
    if outcome.Thrown? {
      return true;
    }
    ghost var repaired := body.input;
    RepairedThrows(old(body.input));
    var i := 0;
    while i < |body.input|
      invariant 0 <= i <= |body.input| == |repaired|
      invariant forall k :: 0 <= k < i ==> !EntryThrows(repaired[k]) && body.input[k] == InjectEntry(store, repaired[k])
      invariant forall k :: i <= k < |repaired| ==> body.input[k] == repaired[k]
    {
      var e := body.input[i];
      if e.Missing? {
        assert body.input == InjectEntries(store, repaired[..i]) + repaired[i..];
        return true;
      }
      if R.IsCall(e) && e.callId.Some? && e.arguments.Some? {
        if Fieldless(e.arguments.value) {
          assert body.input == InjectEntries(store, repaired[..i]) + repaired[i..];
          return true;
        }
        body.input := body.input[i := e.(arguments := Some(InjectText(store, e.callId.value, e.arguments.value)))];
      }
      assert !EntryThrows(repaired[i]);
      i := i + 1;
    }
    thrown := false;
  }

  ghost predicate StoppedIn(store: Store, before: seq<R.Entry>, after: seq<R.Entry>) {
    exists k :: 0 <= k < |before| && EntryThrows(before[k]) && (forall i :: 0 <= i < k ==> !EntryThrows(before[i]))
                && after == InjectEntries(store, before[..k]) + before[k..]
  }

  /** Repair drops no element that throws and gives every call an id. */
  lemma RepairedThrows(input: seq<R.Entry>)
    ensures ResponsesThrows(R.Repaired(input)) <==> ResponsesThrows(input)
    ensures forall k :: 0 <= k < |R.Repaired(input)| && R.IsCall(R.Repaired(input)[k]) ==> R.Repaired(input)[k].callId.Some?
  {
    hide Fieldless, R.SyntheticId, R.CallIds;
    var filled := R.WithIds(input);
    var at := R.FilterInOrder(filled, R.CallIds(filled));
    if i :| 0 <= i < |input| && EntryThrows(input[i]) {
      var k := R.KeptAt(filled, R.CallIds(filled), at, i);
      assert EntryThrows(R.Repaired(input)[k]);
    }
    forall k | 0 <= k < |R.Repaired(input)|
      ensures R.IsCall(R.Repaired(input)[k]) ==> R.Repaired(input)[k].callId.Some?
      ensures EntryThrows(R.Repaired(input)[k]) ==> ResponsesThrows(input)
    {
      assert filled[at[k]] == R.WithId(at[k], input[at[k]]);
      assert EntryThrows(filled[at[k]]) ==> EntryThrows(input[at[k]]);
    }
  }

  lemma InjectedIds(store: Store, input: seq<R.Entry>)
    ensures R.CallIds(InjectEntries(store, input)) == R.CallIds(input)
  {
    hide InjectText;
    var injected := InjectEntries(store, input);
    forall id | id in R.CallIds(input)
      ensures id in R.CallIds(injected)
    {
      var i :| 0 <= i < |input| && R.IsCall(input[i]) && Truthy(input[i].callId) && input[i].callId.value == id;
      assert R.IsCall(injected[i]) && injected[i].callId == input[i].callId;
    }
  }

  lemma {:induction false} InjectEntriesKeepVerdict(store: Store, input: seq<R.Entry>)
    ensures R.Check(InjectEntries(store, input)) == R.Check(input)
  {
    assert input == [] ==> InjectEntries(store, input) == [];
    hide InjectText, R.CallIds;
    if input != [] {
      var before := Init(input);
      InjectEntriesKeepVerdict(store, before);
      assert Init(InjectEntries(store, input)) == InjectEntries(store, before);
      var injected := InjectEntries(store, before);
      InjectedIds(store, before);
    }
  }

  // ----- what goes out -----

  /** A request goes out rewritten, or as it came because the rewriting threw, or is refused. */
  datatype ChatRequest = ChatSent(messages: seq<C.Message>) | ChatUntouched | ChatRefused(problem: C.Problem)

  datatype ResponsesRequest = Sent(input: seq<R.Entry>) | Untouched | Refused(problem: R.Problem)

  function OutgoingChat(store: Store, messages: seq<C.Message>): ChatRequest {
    if ChatThrows(messages) then ChatUntouched
    else
      var out := InjectChat(store, C.Sanitized(messages));
      match C.Check(out)
      case Some(problem) => ChatRefused(problem)
      case None => ChatSent(out)
  }

  function OutgoingResponses(store: Store, input: seq<R.Entry>): ResponsesRequest {
    if ResponsesThrows(input) then Untouched
    else
      var out := InjectEntries(store, R.Repaired(input));
      match R.Check(out)
      case Some(problem) => Refused(problem)
      case None => Sent(out)
  }

  /**
   * A Responses request goes out rewritten exactly when no element is absent, no call has arguments without fields,
   * the original ids are distinct and none of them is one that is made up, no name is blank, and outputs come after
   * their calls. With an absent element or such arguments it goes out as it came, unrepaired and unchecked.
   */
  lemma OutgoingResponsesAccepted(store: Store, input: seq<R.Entry>)
    ensures OutgoingResponses(store, input).Untouched? <==> ResponsesThrows(input)
    ensures OutgoingResponses(store, input) == Sent(InjectEntries(store, R.Repaired(input)))
       <==> !ResponsesThrows(input) && R.NoClash(input) && R.CallsSound(input) && R.OutputsFollow(R.WithIds(input))
  {
    hide ResponsesThrows, InjectText, R.Repaired, R.NoClash, R.CallsSound, R.OutputsFollow, R.WithIds, R.Check;
    InjectEntriesKeepVerdict(store, R.Repaired(input));
    R.RepairFitsValidator(input);
  }

  /**
   * A chat request goes out rewritten exactly when no call with an id has arguments without fields, the calls that
   * have an id have names and different ids, and every tool result that stays comes after its call. With such
   * arguments it goes out as it came, unsanitized and unchecked.
   */
  lemma OutgoingChatAccepted(store: Store, messages: seq<C.Message>)
    ensures OutgoingChat(store, messages).ChatUntouched? <==> ChatThrows(messages)
    ensures OutgoingChat(store, messages) == ChatSent(InjectChat(store, C.Sanitized(messages)))
       <==> !ChatThrows(messages) && C.CallsAccepted(C.KeepCalls(C.AllCalls(messages))) && C.ResultsFollow(messages)
  {
    hide ChatThrows, InjectText, C.Sanitized, C.CallsAccepted, C.ResultsFollow, C.AllCalls, C.KeepCalls, C.Check;
    InjectChatKeepsVerdict(store, C.Sanitized(messages));
    C.SanitizerFitsValidator(messages);
  }

  /** A chat request that lost a call to the sanitizer is never refused for a missing id. */
  lemma OutgoingChatHasIds(store: Store, messages: seq<C.Message>)
    requires C.Nameless(messages) > 0
    ensures var out := OutgoingChat(store, messages);
      out.ChatRefused? ==> out.problem.code != C.MissingToolCallId
  {
    hide ChatThrows;
    InjectChatKeepsVerdict(store, C.Sanitized(messages));
    if C.Check(C.Sanitized(messages)).Some? && C.Check(C.Sanitized(messages)).value.code == C.MissingToolCallId {
      C.SanitizedLacksNoId(messages);
    }
  }
}
