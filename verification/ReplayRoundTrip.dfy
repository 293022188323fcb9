/** The whole way of a call's metadata: out of the stream into the store, and back into the history that is replayed. */
module ReplayRoundTrip {
  import opened Options
  import opened Text
  import opened Json
  import opened ToolMetadata
  import opened HistoryInjection
  import C = ChatHistory
  import R = ResponsesHistory
  import A = AnthropicStream
  import M = AnthropicMeaning
  import S = SseEvents
  import O = OpenAiStream
  import OC = OpenAiConservation
  import OS = OpenAiStore
  import OR = OpenAiRelays
  import P = ResponsesStream
  import RS = ResponsesStore

  /** The store holds exactly what it should of a call with these arguments. */
  predicate Kept(store: Store, id: string, m: map<string, Json>) {
    MetaAt(store, id) == if WorthKeeping(MetaIn(m)) then Some(MetaIn(m)) else None
  }

  lemma BackFrom(store: Store, id: string, sent: Fields, m: map<string, Json>)
    requires Kept(store, id, m) && Distinct(sent) && AsMap(sent) == Bare(m)
    ensures AsMap(Reinject(store, id, sent)) == m <==> RestorableMap(m)
  {
    hide AsMap, Reinject, Distinct, Stored, MetaIn, WorthKeeping, Bare, RestorableMap;
    ReinjectMeaning(store, id, sent);
    TakenApart(m);
  }

  /** The same for arguments that are replayed as text. */
  lemma TextBackFrom(store: Store, id: string, text: string, sent: Fields, m: map<string, Json>)
    requires Kept(store, id, m) && Parse(text) == Some(Obj(sent)) && AsMap(sent) == Bare(m)
    ensures var back := Parse(InjectText(store, id, text));
      back.Some? && back.value.Obj? && (AsMap(back.value.fields) == m <==> RestorableMap(m))
  {
    hide AsMap, Reinject, InjectText, Parse, Kept, Bare, RestorableMap;
    assert WellFormed(Obj(sent));
    InjectTextMeaning(store, id, text, sent);
    BackFrom(store, id, sent, m);
  }

  // ----- Anthropic -----

  /**
   * A tool call that reached the consumer and is replayed as a block of an assistant message goes out with the model's
   * own arguments, metadata included, exactly when the metadata is restorable.
   */
  lemma AnthropicRoundTrip(store: Store, events: seq<S.SseEvent>, i: Option<int>, fields: Fields, m: AnthropicMessage, k: nat)
    requires M.SoundStream(events) && M.FreshStream(events)
    requires i in M.Assemble(events).items && M.IsTool(M.Assemble(events).items[i])
    requires Parse(M.Assemble(events).items[i].inputJson) == Some(Obj(fields))
    requires M.Assemble(events).items[i].toolId.value !in store
    requires m.role == "assistant" && m.content.Some? && k < |m.content.value|
    requires var out, block := M.Output(store, events), m.content.value[k];
      && block.kind == "tool_use" && Some(block.id) == M.Assemble(events).items[i].toolId
      && i in M.Assemble(out.emitted).items
      && block.input.Some? && Parse(M.Assemble(out.emitted).items[i].inputJson) == Some(Obj(block.input.value))
    ensures var after := InjectMessage(M.Output(store, events).store, m);
      && after.content.Some? && |after.content.value| == |m.content.value| && after.content.value[k].input.Some?
      && (AsMap(after.content.value[k].input.value) == AsMap(fields) <==> Restorable(fields))
  {
    hide M.SoundStream, M.FreshStream, M.Assemble, M.Output, Parse, AsMap, Reinject, Clean, Restorable;
    M.ReplayRestores(store, events, i, fields);
    ToolsHaveIds(events);
  }

  predicate ToolsNamed(m: M.Message) {
    forall i :: i in m.items && M.IsTool(m.items[i]) ==> m.items[i].toolId != Some("")
  }

  lemma DeliverNames(m: M.Message, e: S.SseEvent)
    requires ToolsNamed(m)
    ensures ToolsNamed(M.Deliver(m, e))
  {
    hide M.ReadEvent;
  }

  lemma {:induction false} ToolsHaveIds(events: seq<S.SseEvent>)
    ensures ToolsNamed(M.Assemble(events))
  {
    hide M.Deliver;
    if events != [] {
      ToolsHaveIds(Init(events));
      DeliverNames(M.Assemble(Init(events)), Last(events));
    }
  }

  // ----- Chat Completions -----

  /** The same for a call of a Chat Completions stream that is replayed among the calls of an assistant message. */
  lemma ChatRoundTrip(store: Store, chunks: seq<string>, n: nat, messages: seq<C.Message>, i: nat, j: nat)
    requires var calls := OS.AllSent(store, Split(Flatten(chunks)));
      && n < |calls| && calls[n].id !in store && !O.PassedRaw(calls[n])
      && forall o :: 0 <= o < |calls| && o != n ==> calls[o].id != calls[n].id
    requires i < |messages| && messages[i].role == "assistant" && messages[i].toolCalls.Some?
    requires j < |messages[i].toolCalls.value|
    requires var found, replayed := OC.Found(O.Run(store, chunks).emitted), messages[i].toolCalls.value[j];
      n < |found| && replayed.id == Some(found[n].1.id) && replayed.arguments == Some(found[n].1.args)
    ensures var after := InjectChat(O.Run(store, chunks).store, messages)[i];
      && after.toolCalls.Some? && |after.toolCalls.value| == |messages[i].toolCalls.value|
      && after.toolCalls.value[j].arguments.Some?
      && var back := Parse(after.toolCalls.value[j].arguments.value);
      && var m := OS.ArgumentsOf(OS.AllSent(store, Split(Flatten(chunks)))[n]);
      && back.Some? && back.value.Obj? && (AsMap(back.value.fields) == m <==> RestorableMap(m))
  {
    hide OS.AllSent, O.Run, OC.Found, Split, Flatten, Parse, InjectText, AsMap, OS.ArgumentsOf, RestorableMap;
    var call, c := OS.AllSent(store, Split(Flatten(chunks)))[n], O.Run(store, chunks);
    var sent := SentOf(store, chunks, n);
    TextBackFrom(c.store, call.id, OC.Found(c.emitted)[n].1.args, sent, OS.ArgumentsOf(call));
    NotEmpty(OC.Found(c.emitted)[n].1.args);
  }

  lemma NotEmpty(text: string)
    requires Parse(text).Some?
    ensures text != ""
  {
  }

  /** What a reader finds of the call, and what the stream remembers of it. */
  lemma SentOf(store: Store, chunks: seq<string>, n: nat) returns (sent: Fields)
    requires var calls := OS.AllSent(store, Split(Flatten(chunks)));
      && n < |calls| && calls[n].id !in store && !O.PassedRaw(calls[n])
      && forall o :: 0 <= o < |calls| && o != n ==> calls[o].id != calls[n].id
    ensures var c, call := O.Run(store, chunks), OS.AllSent(store, Split(Flatten(chunks)))[n];
      && n < |OC.Found(c.emitted)| && OC.Found(c.emitted)[n].1.id == call.id && call.id != ""
      && Parse(OC.Found(c.emitted)[n].1.args) == Some(Obj(sent))
      && AsMap(sent) == Bare(OS.ArgumentsOf(call)) && Kept(c.store, call.id, OS.ArgumentsOf(call))
  {
    hide OS.AllSent, O.Run, OC.Found, Split, Flatten, Parse, AsMap, OS.ArgumentsOf, OS.Remembered, OC.AllNamed;
    hide OC.Reports, O.OutArgs, MetaIn, WorthKeeping, Bare;
    var calls, c := OS.AllSent(store, Split(Flatten(chunks))), O.Run(store, chunks);
    OS.StreamStore(store, chunks);
    OR.ReportsAt(calls);
    OS.OnlyOne(store, calls, n);
    sent := OS.SentArguments(calls[n]);
    Named(store, chunks, n);
  }

  lemma Named(store: Store, chunks: seq<string>, n: nat)
    requires n < |OC.Found(O.Run(store, chunks).emitted)|
    ensures OC.Found(O.Run(store, chunks).emitted)[n].1.id != ""
  {
    hide O.Run, OC.Found;
    OC.CallsConserved(store, chunks, OC.Key(0, 0, ""));
  }

  // ----- Responses -----

  /**
   * The same for a call of a Responses stream that is replayed as an entry of the input, its arguments those that the
   * stream announced, less their metadata. The stream may announce the call any number of times.
   */
  lemma ResponsesRoundTrip(store: Store, chunks: seq<string>, callId: string, arguments: string, fields: Fields,
                           input: seq<R.Entry>, i: nat, sent: Fields)
    requires callId !in store && Parse(arguments) == Some(Obj(fields))
    requires var calls := RS.AnnouncedBy(RS.Incoming(Flatten(chunks)));
      && (callId, arguments) in calls
      && forall o :: 0 <= o < |calls| && calls[o].0 == callId ==> calls[o].1 == arguments
    requires i < |input| && input[i].Entry? && input[i].kind == "function_call" && input[i].callId == Some(callId)
    requires input[i].arguments.Some? && Parse(input[i].arguments.value) == Some(Obj(sent))
    requires AsMap(sent) == Bare(AsMap(fields))
    ensures var after := InjectEntries(P.Run(store, chunks).store, input)[i];
      && after.Entry? && after.arguments.Some?
      && var back := Parse(after.arguments.value);
      && back.Some? && back.value.Obj? && (AsMap(back.value.fields) == AsMap(fields) <==> RestorableMap(AsMap(fields)))
  {
    hide RS.AnnouncedBy, RS.Incoming, P.Run, Flatten, Parse, InjectText, AsMap, RestorableMap, RS.Remembered, MetaIn, WorthKeeping, Bare;
    RS.StreamStore(store, chunks, callId);
    RememberedAlike(store, RS.AnnouncedBy(RS.Incoming(Flatten(chunks))), callId, arguments);
    TextBackFrom(P.Run(store, chunks).store, callId, input[i].arguments.value, sent, AsMap(fields));
  }

  lemma {:induction false} RememberedAlike(store: Store, calls: seq<(string, string)>, callId: string, arguments: string)
    requires callId !in store
    requires forall o :: 0 <= o < |calls| && calls[o].0 == callId ==> calls[o].1 == arguments
    ensures RS.Remembered(store, calls, callId) ==
      if (callId, arguments) in calls && WorthKeeping(RS.MetaOfText(arguments)) then Some(RS.MetaOfText(arguments)) else None
  {
    hide RS.MetaOfText, WorthKeeping;
    if calls != [] {
      RememberedAlike(store, Init(calls), callId, arguments);
      assert calls == Init(calls) + [Last(calls)];
    }
  }
}
