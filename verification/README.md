# Bitlab: what the streams, histories, docks and small machines keep

A model in Dafny of the repository's stateful core, with proofs over every input and every run.

- **Streaming rewriters.** Three transformers sit between a model provider and an SDK. They cut network chunks into lines,
  collect each tool call's arguments and send them on once, without the two metadata fields `_intent` and
  `_displayName`, which go into a store. `AnthropicStream`, `OpenAiStream` and `ResponsesStream` hold the transformers as
  classes proved against a line-by-line specification; `AnthropicMeaning`, `OpenAiConservation`, `OpenAiFinish`,
  `OpenAiRelays` and the `...Text` modules say what comes out, `AnthropicToolCall`, `OpenAiStore` and `ResponsesStore` also
  what the store holds then, `RawStrip` what goes of a text that does not parse. `Json` is a printer and parser for the argument texts, `JsonLayout` its
  white space, `SseEvents` a reference reader of event streams, `LineFeed` the chunk buffering all three share.
- **Replayed histories.** `ChatHistory` and `ResponsesHistory` hold the in-place sanitizing and repair passes and the two
  validators, `ChatLaws` and `ResponsesLaws` the same in the words of the request formats; `HistoryInjection` and
  `ToolMetadata` put the stored metadata back, and `ReplayRoundTrip` follows it out of a stream and back; `ShortHash` is the rolling hash behind
  synthesized ids; `MetadataStore` the file-backed cache of the metadata.
- **Browser tabs.** `BrowserPane` is the state of tabs, docks and owners with one function per step, `BrowserDocks` and
  `BrowserOwnership` what holds over every run, `BrowserEffects` what each step does tab by tab, `BrowserManager` the
  manager with its tab objects. `ElementRefs` hands out stable references to page elements, and `ElementLaws` says which
  elements and what of them.
- **Small machines.** `RequestTracker` times model calls, `Handshakes`, `HandshakeLaws` and `HandshakeResponses` are the
  approval, execution and prefetch protocol, `PageRange` and `PageRangeLaws` are the page-range parser, and `PdfLiteral`, `PdfWriter`,
  `PdfPages` and `PdfReader` are the hand-written PDF files and a reader of them.

Code that changes things step by step is a class or a method with loops, proved equal to a specification function; the
laws are lemmas about those functions. Runs are lists of operations, so a lemma over `Run` is about every reachable state.

## Where the code and its own documentation part

- The Anthropic stream joins two data lines of one event with a newline and writes them as one field, which a reader of
  the output does not get (`AnthropicText.TwoDataLinesBreak`, `SseEvents.FrameSurvives`), and it drops an event whose data
  holds U+2028 or U+2029, which JSON allows (`AnthropicText.WrittenEvent`).
- The OpenAI streams need the space after `data:`; the standard does not. An event without it loses its blank line, and
  its data runs into the next event sent (`OpenAiText.TextReadsBack`, `OpenAiText.UnspacedDataMerges`).
- The consolidated calls are said to come just before the event that finishes. They do for `tool_calls` and `stop`; an
  event that finishes for another reason, such as `length`, goes out ahead of them
  (`OpenAiFinish.CallsPrecedeEnd`, `OpenAiFinish.OtherReasonsComeFirst`). One that carries a list of tool calls, be it
  empty, is suppressed with its finish (`OpenAiFinish.FinishSuppressed`).
- Repairing a Responses history throws on an absent element, and its result is rejected when a call already bears the id
  that another one is given (`ResponsesHistory.ClashRejected`).
- Arguments that parse to null, a boolean, a number or a string make both injection passes throw; the request then goes
  out as it came, neither repaired nor validated (`HistoryInjection.OutgoingChatAccepted`,
  `HistoryInjection.OutgoingResponsesAccepted`). Arguments that parse to an array become an object
  (`HistoryInjection.ArraysBecomeObjects`).
- A stop is said to mark the call unwinding next. It marks it exactly if that call is closed as failed or aborted; a call
  that completes or is interrupted leaves the stop to a later one (`RequestTracker.NextClosingAborted`,
  `RequestTracker.StopOutlivesSuccess`).
- Owner keys are said not to collide; with a colon in a workspace id two sessions can share one
  (`BrowserOwnership.KeysAreDistinct`).
- Asking twice for a session's tab can give two tabs: when the generated id is an existing tab's, or when the tab taken
  over was already closed (`BrowserOwnership.RequestsAreStable`, `BrowserOwnership.IdInUse`,
  `BrowserOwnership.ClosedTakenOver`).
- The event of an old page removes a newer tab of the same id from the table and leaves its view attached
  (`BrowserDocks.LateEventsLeaveViews`, `BrowserDocks.ViewLeftBehind`).
- A listed element with backend id 0 cannot be acted on (`ElementRefs.ListedResolves`, `ElementRefs.ElementZeroIsListed`).

## Model

| member | source | states |
|---|---|---|
| AnthropicStream.Stream.Transform | packages/shared/src/unified-network-interceptor.ts:612-641 | one chunk moves the transformer's fields and output exactly as the line-by-line specification does |
| AnthropicStream.Stream.Flush | packages/shared/src/unified-network-interceptor.ts:643-678 | the end of the stream hands over a pending event only if the unterminated line is not blank, then emits every block still buffered |
| AnthropicStream.Stream.HandleEvent | packages/shared/src/unified-network-interceptor.ts:505-558 | a tool block's start is tracked, its argument deltas are held back, its stop emits the buffered arguments first; everything else passes |
| AnthropicStream.Stream.EmitBufferedBlock | packages/shared/src/unified-network-interceptor.ts:560-600 | the single delta that replaces a block's argument deltas, with the metadata captured and removed, or nothing for an empty buffer |
| AnthropicMeaning.MeaningPreserved | packages/shared/src/unified-network-interceptor.ts:495-681 | for every event stream that adds nothing to a stopped tool and does not reuse an open tool's index for another kind of block, and wherever it is cut off, a consumer of the output builds the message of the input with both metadata fields gone from every tool's arguments; blocks may interleave |
| AnthropicMeaning.ReadsAlike | packages/shared/src/unified-network-interceptor.ts:505-558 | the stream takes every event as a consumer does that goes by the name of the event and the fields the protocol gives it |
| AnthropicMeaning.StreamStore | packages/shared/src/unified-network-interceptor.ts:216-225 | after any prefix, the metadata store holds for every finished tool exactly what its arguments carry and for every open tool what it held before |
| AnthropicMeaning.ReplayRestores | packages/shared/src/unified-network-interceptor.ts:569-576 | for a tool whose arguments are an object: the consumer gets them without metadata, and re-injecting what the stream stored gives the original map back exactly when each metadata field was absent or a non-empty string |
| AnthropicToolCall.OneToolThrough | packages/shared/src/unified-network-interceptor.ts:505-600 | the events of a tool call with any id, name and index and its arguments in any pieces: what goes out is its start, one delta with the arguments less `_intent` and `_displayName`, and its stop, and these two are in the store under its id unless neither is a non-empty string |
| AnthropicToolCall.OneToolThroughText | packages/shared/src/unified-network-interceptor.ts:602-679 | the same on text, cut anywhere |
| AnthropicText.CuttingIsIrrelevant | packages/shared/src/unified-network-interceptor.ts:612-679 | any two ways of cutting the same text into chunks give the same output and the same store |
| AnthropicText.TextMeaningPreserved | packages/shared/src/unified-network-interceptor.ts:602-679 | text to text, for texts in which each event is an `event:` line, a `data:` line and a blank line: a standard reader of the output builds the message a standard reader of the input builds, less the metadata |
| AnthropicText.WrittenEvent | packages/shared/src/unified-network-interceptor.ts:617-640 | a written event is handed over exactly when its data holds no line separator of any kind; one with U+2028 or U+2029 is dropped |
| AnthropicText.CutInLastEvent | packages/shared/src/unified-network-interceptor.ts:643-669 | at the end of the stream the last event is handed over if its data line is unterminated and lost if only its blank line is missing |
| AnthropicText.TwoDataLinesBreak | packages/shared/src/unified-network-interceptor.ts:602-638 | an event with two data lines is written back as one field, and a reader of the output does not get it |
| SseEvents.ReadBack | packages/shared/src/unified-network-interceptor.ts:602-609 | a reader following sections 9.2.5 and 9.2.6 of the WHATWG HTML Living Standard reads framed events back as themselves |
| SseEvents.FrameSurvives | packages/shared/src/unified-network-interceptor.ts:602-609 | a written event reads back as itself exactly when its data holds no newline |
| LineFeed.CuttingIsIrrelevant | packages/shared/src/unified-network-interceptor.ts:612-616 | buffering the unfinished line makes every cutting of a text equal to the text in one chunk, for any line handler |
| OpenAiStream.Stream.Transform | packages/shared/src/unified-network-interceptor.ts:1104-1119 | one chunk moves the transformer's fields and output exactly as the line-by-line specification does |
| OpenAiStream.Stream.FlushStream | packages/shared/src/unified-network-interceptor.ts:1121-1132 | the unterminated line counts only as a data line; then every tracked call is flushed |
| OpenAiStream.Stream.ProcessDataLine | packages/shared/src/unified-network-interceptor.ts:948-1101 | a chunk with tool calls in any choice is suppressed whole; one without that finishes for `tool_calls` or `stop` flushes the calls first; anything else passes |
| OpenAiStream.Stream.TrackDelta | packages/shared/src/unified-network-interceptor.ts:1011-1081 | one tool-call delta: same id appends, another id opens or replaces, no id appends by index or by position |
| OpenAiStream.Stream.MergeArguments | packages/shared/src/unified-network-interceptor.ts:888-913 | the object-level merge of the same-index arguments and the shifted objects, and whether a piece failed to parse |
| OpenAiStream.Stream.FlushTrackedCalls | packages/shared/src/unified-network-interceptor.ts:874-946 | one consolidated event per tracked call in order, then nothing is tracked or buffered |
| OpenAiConservation.CallsConserved | packages/shared/src/unified-network-interceptor.ts:948-1132 | over any stream, per choice, index and id: calls found in the output plus calls replaced by another id equal calls opened; each has an id and a name; nothing stays tracked |
| OpenAiConservation.ApplyBalances | packages/shared/src/unified-network-interceptor.ts:1003-1081 | every delta keeps the invariant (one call per key, ids and names non-empty, buffering exactly while calls are tracked) and balances the account of calls |
| OpenAiConservation.FlushSends | packages/shared/src/unified-network-interceptor.ts:874-946 | a flush sends each tracked call once, strictly sorted by choice and index, and forgets them all |
| OpenAiConservation.ConsolidatedReads | packages/shared/src/unified-network-interceptor.ts:927-942 | the consolidated event, printed and parsed, reads back as exactly its call |
| OpenAiStore.StreamStore | packages/shared/src/unified-network-interceptor.ts:874-1132 | over any stream, cut anywhere: a reader finds the calls sent, and the store holds under every id the metadata of the last of them with that id that has any, or else what it held before |
| OpenAiStore.ReplayRestores | packages/shared/src/unified-network-interceptor.ts:915-942 | a call sent under an id of its own goes out with its arguments less the metadata, and re-injecting what the stream stored gives them back as the model meant them exactly when each metadata field was absent or a non-empty string |
| OpenAiStore.TwoDeltas | packages/shared/src/unified-network-interceptor.ts:1011-1054 | a call opened by one delta and gone on with by another has its own id, its kind or `function`, the arguments of both, and the first name that is there and not `unknown` |
| OpenAiStore.OneCallThrough | packages/shared/src/unified-network-interceptor.ts:874-1132 | text to text: one call with any id, choice, index, kind and arguments and its finish, cut anywhere; what goes out, and what the store holds, to the letter |
| OpenAiFinish.CallsPrecedeEnd | packages/shared/src/unified-network-interceptor.ts:948-1101 | after any lines, an event that ends an answer, for whatever reason, is sent behind every call opened so far (unless another id replaced it) exactly when no choice of it carries tool calls and it is `[DONE]`, or some choice finishes for `tool_calls` or `stop`, or no call is tracked; otherwise it is suppressed or goes out ahead of the tracked calls |
| OpenAiFinish.EndingsPass | packages/shared/src/unified-network-interceptor.ts:1083-1101 | over a whole stream, cut anywhere, the events that end an answer come out unchanged and in order, except those that carry tool calls in any choice, which do not come out |
| OpenAiFinish.OtherReasonsComeFirst | packages/shared/src/unified-network-interceptor.ts:1088-1101 | a run from the start for any call and any reason but these two: the finish comes out first and the call after it |
| OpenAiFinish.FinishSuppressed | packages/shared/src/unified-network-interceptor.ts:1003-1086 | a run from the start whose one finish event has an empty list of tool calls: nothing comes out |
| OpenAiConservation.OthersPassInOrder | packages/shared/src/unified-network-interceptor.ts:948-1132 | over any stream and cutting, every line that carries no tool call comes out trimmed and in order; blank lines, and an unterminated last line that is no data line, do not |
| OpenAiRelays.ShapesAgree | packages/shared/src/unified-network-interceptor.ts:1003-1054 | repeating ids and dropping the index of the call opened last make no difference to the state, in any mix |
| OpenAiRelays.ShapesCollect | packages/shared/src/unified-network-interceptor.ts:1003-1054 | in any mix of these shapes each call ends up as it was opened, with all its pieces joined in order |
| OpenAiRelays.ShiftLands | packages/shared/src/unified-network-interceptor.ts:1054-1078 | with calls 0..n-1 open, the complete object at index n+k lands on call k and on no other |
| OpenAiRelays.OutArgsMap | packages/shared/src/unified-network-interceptor.ts:888-925 | a call's outgoing arguments are its own text's map overridden by every object shifted onto it in turn, less the metadata, and the empty object where there are none; a text that does not parse goes out as it is exactly when nothing was shifted onto it |
| OpenAiRelays.RelaysAgree | packages/shared/src/unified-network-interceptor.ts:874-1081 | the standard, id-repeating and index-dropping ways of sending one list of calls, in any mix, and the index-shifting way give the same consolidated calls exactly when, call by call, the text of the one is empty or parses and means what head and object of the other mean |
| OpenAiRelayText.TextSends | packages/shared/src/unified-network-interceptor.ts:948-1132 | tool deltas spread over data events in any way, among others that cause no flush, and then events without tool calls, cut anywhere: what is sent on are the calls the deltas collect |
| OpenAiRelayText.RelaysAgreeOnText | packages/shared/src/unified-network-interceptor.ts:874-1132 | text to text: a reader finds the same consolidated calls in the outputs for two such relays exactly under that condition |
| OpenAiText.CuttingIsIrrelevant | packages/shared/src/unified-network-interceptor.ts:1104-1132 | any two ways of cutting the same text give the same output and the same store |
| OpenAiText.TextReadsBack | packages/shared/src/unified-network-interceptor.ts:1104-1119 | for written data events, with or without the optional space after the colon and however cut: a standard reader reads the input as written; it reads the items sent one by one, each as an event of its own, exactly when every data line has the space |
| OpenAiText.UnspacedDataMerges | packages/shared/src/unified-network-interceptor.ts:1109-1118 | lines without the space are passed on without their blank line: their data runs, line by line, into the data of the next event sent, and is lost where none follows |
| OpenAiText.TwoEventsMerge | packages/shared/src/unified-network-interceptor.ts:1109-1118 | two events of which only the second has the space come out as one event with the data of both |
| ResponsesStream.Stream.Transform | packages/shared/src/unified-network-interceptor.ts:1347-1361 | one chunk moves the transformer exactly as the specification does |
| ResponsesStream.Stream.ProcessDataLine | packages/shared/src/unified-network-interceptor.ts:1281-1345 | which events are cleaned, which are passed on as they are, and what is captured |
| ResponsesStream.CuttingIsIrrelevant | packages/shared/src/unified-network-interceptor.ts:1347-1371 | any two ways of cutting the same text give the same output and the same store |
| ResponsesStream.ArgumentsDoneKept | packages/shared/src/unified-network-interceptor.ts:1297-1313 | an arguments event is sent on as itself with only its arguments changed, to the same object less the metadata |
| ResponsesStream.ItemDoneKept | packages/shared/src/unified-network-interceptor.ts:1315-1341 | a finished function call is sent on as itself with only its item's arguments changed |
| ResponsesStream.AnnouncedTwice | packages/shared/src/unified-network-interceptor.ts:1297-1341 | a call announced by both events is cleaned in both, and the second time stores the same metadata |
| ResponsesStore.StreamStore | packages/shared/src/unified-network-interceptor.ts:1297-1371 | over any stream, cut anywhere: the store holds under every id the metadata of the last call announced under it that has any, or else what it held before |
| ResponsesStore.OneCallThrough | packages/shared/src/unified-network-interceptor.ts:1281-1371 | text to text: a call announced by both events, cut anywhere; what a reader finds in the output, and what the store holds, to the letter |
| ResponsesText.EventsPassInOrder | packages/shared/src/unified-network-interceptor.ts:1281-1371 | over a whole stream, cut anywhere: what goes out are the lines that came in, one for one and in order, unchanged but for the data of the two events that announce a call |
| ResponsesText.SentMeans | packages/shared/src/unified-network-interceptor.ts:1297-1341 | such an event goes out as a text that parses to the event with its call cleaned, and to the same value where it brings no call |
| ResponsesText.TextReadsBack | packages/shared/src/unified-network-interceptor.ts:1275-1279 | text to text: a standard reader of the output reads the written events, same names and order, with the data cleaned |
| ToolMetadata.StripThenReinject | packages/shared/src/unified-network-interceptor.ts:216-225 | stripping and re-injecting give the arguments back as a map exactly when each metadata field is absent or a non-empty string |
| ToolMetadata.ReinjectTwice | packages/shared/src/unified-network-interceptor.ts:752-770 | re-injecting a second time changes nothing, not even the order of fields |
| ToolMetadata.CleanTextMeaning | packages/shared/src/unified-network-interceptor.ts:566-576 | the cleaned text of an argument object parses to the object without its two metadata fields |
| RawStrip.FieldGoes | packages/shared/src/unified-network-interceptor.ts:234-239 | from a text that does not parse the first field of a key goes wherever it stands, with any string that JSON can write, any white space and its comma if it has one |
| RawStrip.CommaGoes | packages/shared/src/unified-network-interceptor.ts:234-239 | a comma left before a closing brace goes too |
| RawStrip.CutShort | packages/shared/src/unified-network-interceptor.ts:588-599 | of an object that is cut short after its metadata, both fields go and the rest stays |
| ToolMetadata.CaptureMeaning | packages/shared/src/unified-network-interceptor.ts:216-225 | of an argument map exactly the string `_intent` and `_displayName` are stored, and only if one of them is not empty |
| ToolMetadata.ReinjectMeaning | packages/shared/src/unified-network-interceptor.ts:752-770 | re-injected arguments are the replayed ones over the non-empty stored fields |
| ToolMetadata.TakenApart | packages/shared/src/unified-network-interceptor.ts:216-225 | what is stored of an argument map and what is left of it give the map back exactly when each metadata field is absent or a non-empty string |
| HistoryInjection.AnthropicBody.InjectMetadata | packages/shared/src/unified-network-interceptor.ts:737-780 | in place: in every assistant message every tool-use block with an id in the store gets the map of its own input over the non-empty stored fields; every other block and message stays |
| HistoryInjection.InjectChatHistory | packages/shared/src/unified-network-interceptor.ts:1194-1250 | sanitize, then inject into every call with an id; the pass throws exactly when such a call has arguments that parse to null, a boolean, a number or a string, and then stops at the first of them with the calls before it injected |
| HistoryInjection.InjectResponsesHistory | packages/shared/src/unified-network-interceptor.ts:1421-1468 | repair, then inject; the pass throws exactly when an element is absent or a call has arguments that parse to null, a boolean, a number or a string, and then stops there, with nothing after it changed |
| HistoryInjection.InjectMessageTwice | packages/shared/src/unified-network-interceptor.ts:737-780 | injecting into an Anthropic message twice is injecting once |
| HistoryInjection.InjectTextMeans | packages/shared/src/unified-network-interceptor.ts:1205-1241 | an arguments text after injection: an object has its own fields over the stored ones, a text that stands for neither an object nor an array stays, and so does any where nothing is stored |
| HistoryInjection.InjectChatMeans | packages/shared/src/unified-network-interceptor.ts:1194-1250 | in a chat history the calls of assistant messages that have an id and arguments are injected, and nothing else changes |
| HistoryInjection.InjectEntriesMean | packages/shared/src/unified-network-interceptor.ts:1421-1468 | in a Responses history the function calls that have an id and arguments are injected, and nothing else changes |
| HistoryInjection.WhichThrow | packages/shared/src/unified-network-interceptor.ts:1205-1241 | the calls and entries that throw are those whose arguments parse to null, a boolean, a number or a string, and absent entries |
| ReplayRoundTrip.AnthropicRoundTrip | packages/shared/src/unified-network-interceptor.ts:505-780 | out and back: a tool call that reached the consumer and is replayed in an assistant message goes out with the model's own arguments exactly when their metadata is restorable |
| ReplayRoundTrip.ChatRoundTrip | packages/shared/src/unified-network-interceptor.ts:874-1250 | the same for a call that an OpenAI stream sent under an id of its own |
| ReplayRoundTrip.ResponsesRoundTrip | packages/shared/src/unified-network-interceptor.ts:1297-1468 | the same for a call that a Responses stream announced, however often |
| HistoryInjection.InjectTextTwice | packages/shared/src/unified-network-interceptor.ts:1194-1250 | injecting into an arguments text twice is injecting once, character for character |
| HistoryInjection.ArraysBecomeObjects | packages/shared/src/unified-network-interceptor.ts:1221-1241 | an arguments text that parses to an array, and to which stored metadata is added, goes out as an object with the elements as numbered fields and the metadata after them |
| HistoryInjection.StripThenInjectText | packages/shared/src/unified-network-interceptor.ts:1194-1250 | stripping a text and injecting into the result parses to the original map exactly when the metadata is restorable |
| HistoryInjection.InjectChatKeepsVerdict | packages/shared/src/unified-network-interceptor.ts:1194-1255 | injection never changes the chat validator's verdict |
| HistoryInjection.OutgoingResponsesAccepted | packages/shared/src/unified-network-interceptor.ts:2155-2185 | a Responses request goes out as it came, unrepaired and unchecked, exactly when the pass throws; it goes out rewritten exactly when the pass does not throw, the original ids are distinct and none is a made-up one, names are not blank and surviving outputs follow their calls; otherwise it is refused |
| HistoryInjection.OutgoingChatAccepted | packages/shared/src/unified-network-interceptor.ts:2155-2185 | a chat request goes out as it came exactly when the pass throws; it goes out rewritten exactly when the pass does not throw, the calls that have an id have names and different ids, and every tool result that stays follows its call; otherwise it is refused |
| HistoryInjection.OutgoingChatHasIds | packages/shared/src/unified-network-interceptor.ts:1194-1255 | a chat body that lost a call to the sanitizer is never rejected for a missing id |
| ChatHistory.ChatBody.Sanitize | packages/shared/src/unified-network-interceptor.ts:1500-1558 | in place: calls without an id go; tool results without a known call go only if a call went; the counts are exact |
| ChatHistory.Validate | packages/shared/src/unified-network-interceptor.ts:1560-1632 | the validator's loops report the first problem of the body, in message order |
| ChatHistory.ValidatorExact | packages/shared/src/unified-network-interceptor.ts:1560-1632 | no problem is reported exactly when every call has an id and a name, ids are distinct and every tool result refers to a call of an earlier message |
| ChatHistory.ProblemIsReal | packages/shared/src/unified-network-interceptor.ts:1560-1632 | each problem code holds of the message it names, and everything before it is acceptable |
| ChatHistory.SanitizerIdentityAndIdempotent | packages/shared/src/unified-network-interceptor.ts:1500-1558 | the sanitizer is the identity on every accepted body, and doing it twice is doing it once |
| ChatHistory.SanitizedLacksNoId | packages/shared/src/unified-network-interceptor.ts:1500-1558 | if the sanitized body is rejected for a missing id, no call was dropped and a tool result lacks its id |
| ChatHistory.SanitizerFitsValidator | packages/shared/src/unified-network-interceptor.ts:1500-1632 | a sanitized body is accepted exactly when the original calls that have an id have names and different ids and every tool result that stays follows its call |
| ChatHistory.PositionsCover | packages/shared/src/unified-network-interceptor.ts:1541-1549 | the filter keeps exactly the right messages, in their order |
| ChatLaws.ValidatorMeans | packages/shared/src/unified-network-interceptor.ts:1560-1632 | accepted exactly when every call of an assistant message has a non-empty id that is new and a name that is not blank, and every tool result the id of a call of an earlier message; else the first message at fault is named, with the first fault of its first call at fault |
| ChatLaws.SanitizerMeans | packages/shared/src/unified-network-interceptor.ts:1500-1558 | a history in which every call has an id stays; from any other exactly the calls without an id and the tool results whose call is not among the others are taken, and all else stays in order |
| ResponsesHistory.Body.Repair | packages/shared/src/unified-network-interceptor.ts:1708-1755 | both passes in place, the backward splice loop included: the input becomes the order-preserving filter of the filled-in input; the counts are exact; an absent element reached by the early exit throws |
| ResponsesHistory.Validate | packages/shared/src/unified-network-interceptor.ts:1641-1693 | the validator's loop reports the first problem of the input |
| ResponsesHistory.ValidatorExact | packages/shared/src/unified-network-interceptor.ts:1641-1693 | no problem exactly when every call has an id of its own and a name and every output refers to an earlier call |
| ResponsesHistory.RepairFitsValidator | packages/shared/src/unified-network-interceptor.ts:1708-1755 | the repaired input is accepted exactly when the original ids are distinct and none is one the repair makes up, no name is blank and every surviving output follows its call |
| ResponsesHistory.RepairLeavesOnly | packages/shared/src/unified-network-interceptor.ts:1708-1755 | after repair a missing id is never reported, and an orphan only for an output placed before its call |
| ResponsesHistory.SyntheticIdsDiffer | packages/shared/src/unified-network-interceptor.ts:1720-1728 | ids synthesized at different positions differ whatever the calls are |
| ResponsesHistory.ClashRejected | packages/shared/src/unified-network-interceptor.ts:1716-1730 | a sound history in which a call already bears the id another one is given is rejected after repair |
| ResponsesHistory.FilterInOrder | packages/shared/src/unified-network-interceptor.ts:1738-1752 | what the backward loop keeps is located by increasing positions: exactly the entries to keep, in order |
| ResponsesLaws.ValidatorMeans | packages/shared/src/unified-network-interceptor.ts:1641-1693 | accepted exactly when every `function_call` has a non-empty id that is new and a name that is not blank, and every `function_call_output` the id of an earlier call; else the first entry at fault is named, with its first fault |
| ResponsesLaws.RepairMeans | packages/shared/src/unified-network-interceptor.ts:1708-1755 | every call gets an id, its own or `repaired_` with its position, name and hash, and exactly the outputs of which no call has the id are taken out; all else stays in order |
| ResponsesLaws.ThrowsMeans | packages/shared/src/unified-network-interceptor.ts:1708-1755 | the repair throws exactly when every call has an id and an element is absent before any output |
| ShortHash.HashShortString | packages/shared/src/unified-network-interceptor.ts:1758-1764 | the loop returns the base-36 text of the absolute value of the exact polynomial reduced to 32 signed bits |
| ShortHash.LoopIsPolynomial | packages/shared/src/unified-network-interceptor.ts:1760-1763 | wrapping in every step equals wrapping the exact polynomial 5381*33^n plus the weighted sum once, for every text; the absolute value is at most 2^31 |
| ShortHash.Base36RoundTrip | packages/shared/src/unified-network-interceptor.ts:1763 | the printed base-36 text determines the absolute value |
| ShortHash.HashReadsBack | packages/shared/src/unified-network-interceptor.ts:1758-1764 | the text, read as base 36, is the distance of the exact polynomial to the nearest multiple of 2^32 |
| ShortHash.UnitsStandFor | packages/shared/src/unified-network-interceptor.ts:1758-1764 | a character is one code unit, or the two that stand for it in UTF-16 |
| Json.RoundTrip | packages/shared/src/unified-network-interceptor.ts:569-590 | printing a well-formed value and parsing it gives the value back |
| JsonLayout.BlankIsIrrelevant | packages/shared/src/unified-network-interceptor.ts:569-590 | white space before, between and after the tokens does not change what a text parses to |
| JsonLayout.OnlyBlank | packages/shared/src/unified-network-interceptor.ts:569-590 | nothing but white space may stand before or after a value |
| MetadataStore.Cache.SetSessionDir | packages/shared/src/interceptor-common.ts:323-331 | switching the directory merges its file into memory and forgets nothing |
| MetadataStore.Cache.Set | packages/shared/src/interceptor-common.ts:334-339 | memory and the current directory's file both get the entry; other files are untouched; without a directory only memory is |
| MetadataStore.Cache.Get | packages/shared/src/interceptor-common.ts:346-361 | memory first, then the file of the explicit or current directory, and a hit there is remembered |
| MetadataStore.Cache.Delete | packages/shared/src/interceptor-common.ts:363-368 | the entry leaves memory and the current directory's file |
| MetadataStore.FilesKeepTheLast | packages/shared/src/interceptor-common.ts:299-339 | over any run each file holds, per id, the value last set under its directory and not deleted there |
| MetadataStore.RestartRecovers | packages/shared/src/interceptor-common.ts:234-255 | after any run a new process asking with an explicit directory gets the value last set and not deleted there |
| MetadataStore.CacheAgrees | packages/shared/src/interceptor-common.ts:296-372 | if each id is set under one directory only, memory and files agree over every run |
| MetadataStore.MemoryEqualsFile | packages/shared/src/interceptor-common.ts:296-372 | wherever memory and any file both hold an id, they hold the same entry |
| MetadataStore.CacheInvisible | packages/shared/src/interceptor-common.ts:346-361 | a read with an id's own directory gives what the file gives, cache or no cache |
| MetadataStore.EntriesSurvive | packages/shared/src/interceptor-common.ts:323-331 | entries of other sessions survive every directory switch and every call about other ids |
| MetadataStore.MemoryHolds | packages/shared/src/interceptor-common.ts:296-372 | after any run memory holds, per id, the value last set, merged in by a directory switch or read, and not deleted |
| MetadataStore.ReadsDiffer | packages/shared/src/interceptor-common.ts:346-361 | after any run a read with an explicit directory differs from that directory's file exactly when memory holds an entry that is not the one last set under that directory |
| MetadataStore.TwoDirectoriesDisagree | packages/shared/src/interceptor-common.ts:334-361 | an instance: an id set under two directories, and a read with the first directory gives the second value |
| RequestTracker.Tracker.BeginRequest | packages/pi-agent-server/src/llm-request-timing.ts:141-157 | an open call is closed as interrupted, then a new one is opened with the next number |
| RequestTracker.Tracker.SettleActive | packages/pi-agent-server/src/llm-request-timing.ts:190-217 | the closing report: status, timing, counted tokens, finish reason and tool ids, and what becomes of a pending stop |
| RequestTracker.ReportsAlternate | packages/pi-agent-server/src/llm-request-timing.ts:124-217 | over every run, opening and closing reports alternate, each closing report is about the call opened just before, and a call is open exactly while its closing report is missing |
| RequestTracker.NumberedInOrder | packages/pi-agent-server/src/llm-request-timing.ts:124-157 | from one run start to the next, the calls opened are numbered 1, 2, 3 and so on |
| RequestTracker.StopComesFirst | packages/pi-agent-server/src/llm-request-timing.ts:130-132 | after a stop no call of the run is reported as an error before one is reported as aborted |
| RequestTracker.StopMarksNextFailure | packages/pi-agent-server/src/llm-request-timing.ts:130-200 | from any state, over any run without a new stop or run start: without an outstanding stop every call is reported with the status it is closed with; an outstanding stop turns exactly the first failure into an abort, unless an abort comes before it, and is outstanding until a call is closed as failed or aborted |
| RequestTracker.NextClosingAborted | packages/pi-agent-server/src/llm-request-timing.ts:130-200 | after a stop the next call closed is reported as aborted exactly when it is closed as failed or aborted, and the stop is outstanding exactly until the first call reported as aborted |
| RequestTracker.StopOutlivesSuccess | packages/pi-agent-server/src/llm-request-timing.ts:190-200 | a stop that comes while a call runs that then completes: the next call, which fails, is the one called aborted |
| RequestTracker.TimesOfEveryCall | packages/pi-agent-server/src/llm-request-timing.ts:190-210 | with a monotone clock every closed call with output has ttft + decode = duration and no negative time |
| RequestTracker.TimesAddUp | packages/pi-agent-server/src/llm-request-timing.ts:202-209 | for any clock the two times add up exactly when the first output lies between start and end, either way round |
| RequestTracker.FirstOutputWins | packages/pi-agent-server/src/llm-request-timing.ts:62-80 | the first output of a call is its first effective event; later and empty ones do not move it |
| RequestTracker.ReportsOfCall | packages/pi-agent-server/src/llm-request-timing.ts:141-217 | over any run of one call, from its opening to what closes it: ttft is the time from the opening to the first event that carries output, decode the time from there, duration the time of all, none of them below zero and neither of the first two without output; the other fields of both reports too |
| RequestTracker.FailureClosesOnce | packages/pi-agent-server/src/llm-request-timing.ts:247-270 | a bracketed call that fails is opened and closed exactly once, whatever was reported about it meanwhile |
| Handshakes.Server.ExecuteTool | packages/pi-agent-server/src/index.ts:1426-1450 | a prefetched result is taken out of the cache, otherwise the main process is asked |
| Handshakes.Server.ResumeTool | packages/pi-agent-server/src/index.ts:1280-1304 | a settled approval refuses the call, sends its execute request or runs it; a settled execution returns its result |
| Handshakes.Server.HandleMessageEnd | packages/pi-agent-server/src/index.ts:1778-1802 | two or more prefetchable calls send one request each, in order, and are remembered; fewer send nothing |
| Handshakes.Server.HandleAbort | packages/pi-agent-server/src/index.ts:2060-2078 | every pending approval is refused, the cache is emptied, executions stay pending |
| Handshakes.Server.HandleShutdown | packages/pi-agent-server/src/index.ts:2445-2480 | every pending approval is refused and every pending execution ends in an error |
| Handshakes.SettledAtMostOnce | packages/pi-agent-server/src/index.ts:1280-1304 | over every run, whatever the ids: no waiter is settled twice and pending ones are unsettled |
| Handshakes.NoWaiterIsLost | packages/pi-agent-server/src/index.ts:2040-2058 | with fresh ids every waiter is settled or still waiting under its own id, over every run |
| Handshakes.OrphansWaitForever | packages/pi-agent-server/src/index.ts:1294-1297 | a waiter whose id was reused before its response came is never settled, in any later run |
| Handshakes.ReuseOrphans | packages/pi-agent-server/src/index.ts:1294-1297 | asking again under a pending id orphans the earlier waiter |
| HandshakeResponses.LateResponsesChangeNothing | packages/pi-agent-server/src/index.ts:2040-2058 | over every run: once a waiter is settled, be it by a response, an abort or a shutdown, every later response under its id changes nothing for as long as no new waiter of its kind is asked for under that id |
| HandshakeResponses.ResponseCounts | packages/pi-agent-server/src/index.ts:2040-2058 | after any run, whatever the ids, a response changes nothing exactly when the waiter asked for last under its id is settled |
| HandshakeResponses.StrangeResponsesChangeNothing | packages/pi-agent-server/src/index.ts:2040-2058 | after any run a response under an id never asked for changes nothing |
| Handshakes.DuplicatesChangeNothing | packages/pi-agent-server/src/index.ts:2040-2058 | of two responses to one request only the first counts |
| Handshakes.AbortRefusesAll | packages/pi-agent-server/src/index.ts:2060-2078 | after an abort no approval is pending and nothing is prefetched; exactly the pending approvals were refused |
| Handshakes.ShutdownSettlesAll | packages/pi-agent-server/src/index.ts:2468-2477 | after a shutdown nothing is pending, and each waiter got the answer of its kind |
| Handshakes.ExecutesOnlyWhatWasApproved | packages/pi-agent-server/src/index.ts:1426-1467 | over every run an execute request sent for a call follows its question and a non-blocking answer, carries the approved input and is the only one for the call |
| Handshakes.ResultsAreNotMixedUp | packages/pi-agent-server/src/index.ts:1426-1467 | over every run a finished call has the result its own request, or the prefetch for its id, was answered with; nothing runs here without an approval |
| Handshakes.PrefetchSendsAll | packages/pi-agent-server/src/index.ts:1786-1800 | every prefetchable call of the message gets one request, in order, and is in the cache |
| Handshakes.PrefetchedUntil | packages/pi-agent-server/src/index.ts:1430-1437 | a prefetched result stays available until its call takes it or an abort drops it, and no longer |
| Handshakes.PrefetchedCallsSendNothing | packages/pi-agent-server/src/index.ts:1426-1444 | a prefetched call sends no second request in any later run, unless an abort came between |
| HandshakeLaws.OneCall | packages/pi-agent-server/src/index.ts:1280-1304 | any call from its question to what comes of the answer: a `block` ends it with the answer's reason or the stock one, a `modify` sends it on or runs it with the answer's input, anything else with its own, less the metadata if it runs here |
| HandshakeLaws.OneProxyCall | packages/pi-agent-server/src/index.ts:1426-1467 | a call that is not blocked returns what comes back under its request's id |
| HandshakeLaws.StoppedWhileAsking | packages/pi-agent-server/src/index.ts:2060-2078 | a call that waits for its answer ends with `Aborted` at an abort and with `Server shutting down` at a shutdown |
| HandshakeLaws.StoppedWhileExecuting | packages/pi-agent-server/src/index.ts:2445-2480 | a call that has been sent on waits through an abort, and a shutdown ends it in an error |
| HandshakeLaws.MessagePrefetches | packages/pi-agent-server/src/index.ts:1778-1802 | two or more calls of `call_llm`, under any of its three names, are sent ahead, one request each, in order and under `prefetch-` with the call's id; with fewer nothing happens |
| ElementRefs.BrowserCdp.AllocateRef | apps/electron/src/main/browser-cdp.ts:167-183 | a known element keeps its reference, anything else gets the next one |
| ElementRefs.BrowserCdp.GetAccessibilitySnapshot | apps/electron/src/main/browser-cdp.ts:189-351 | the loop over the tree, its early exit and its fallback produce exactly the specified snapshot and session state |
| ElementRefs.SnapshotLists | apps/electron/src/main/browser-cdp.ts:189-340 | a snapshot lists the first 500 distinct elements in tree order, each with its own data and a reference of its own |
| ElementRefs.FirstOccurrencesMean | apps/electron/src/main/browser-cdp.ts:220-236 | every entry kept is one of the entries, no element is kept twice and none is lost |
| ElementRefs.ListedInOrder | apps/electron/src/main/browser-cdp.ts:205-340 | the listed nodes stand in the tree in the order in which they are listed |
| ElementRefs.FirstAt | apps/electron/src/main/browser-cdp.ts:220-236 | what is kept of an element is its first occurrence |
| ElementRefs.RefsInvertElements | apps/electron/src/main/browser-cdp.ts:98-104 | the current references resolve to exactly the listed elements and are inverse to the session's table |
| ElementRefs.FallbackOnlyAlone | apps/electron/src/main/browser-cdp.ts:298-330 | if the page has a primary node, every listed node is one |
| ElementRefs.RefsAreStable | apps/electron/src/main/browser-cdp.ts:167-183 | over any number of snapshots an element keeps its reference, different elements never share one, and new references were never handed out before |
| ElementRefs.OldRefsAreSafe | apps/electron/src/main/browser-cdp.ts:167-193 | an old reference never comes to mean another element |
| ElementRefs.ListedResolves | apps/electron/src/main/browser-cdp.ts:357-362 | every listed element resolves by its reference, except element 0 |
| ElementRefs.ElementZeroIsListed | apps/electron/src/main/browser-cdp.ts:357-362 | a page with one element, numbered 0: it is listed and its reference leads nowhere |
| ElementLaws.SnapshotMeans | apps/electron/src/main/browser-cdp.ts:189-351 | a snapshot lists, in tree order, the first 500 of the nodes that are worthy (or, in a tree without one, a last resort) and the first of their elements, and says of each what its node says |
| ElementLaws.PrimaryMeans | apps/electron/src/main/browser-cdp.ts:281-292 | a node is worthy if its role is one of the 21 to act on, or one of the 22 to read and it has a name, or it has a value, unless it is generic and nameless |
| ElementLaws.FlagsMean | apps/electron/src/main/browser-cdp.ts:265-278 | a flag is set if some property says so; `checked` is what its last property says that is not the text `false` |
| ElementLaws.LowerMeans | apps/electron/src/main/browser-cdp.ts:255-256 | roles are read in lower case, letter by letter |
| BrowserManager.Manager.PushDockState | apps/electron/src/main/browser-pane-manager.ts:420-457 | a dock push replaces the dock and reconciles every tab object with it; for a window that is gone it drops the dock |
| BrowserManager.Manager.ReleaseDockOf | apps/electron/src/main/browser-pane-manager.ts:460-470 | the dock goes and every tab of its window is detached; an unknown dock changes nothing |
| BrowserManager.Manager.HideInstance | apps/electron/src/main/browser-pane-manager.ts:1053-1063 | the first dock that shows the tab shows nothing, and the tab is detached |
| BrowserManager.Manager.CreateInstance | apps/electron/src/main/browser-pane-manager.ts:653-755 | a new unattached tab with its ownership, or the existing tab of that id |
| BrowserManager.Manager.DestroyInstance | apps/electron/src/main/browser-pane-manager.ts:757-803 | the tab is detached and leaves the table, nothing else changes |
| BrowserManager.Manager.OnPageDestroyed | apps/electron/src/main/browser-pane-manager.ts:2297-2313 | the event detaches its tab and removes whatever tab has that id |
| BrowserManager.Manager.OnRenderProcessGone | apps/electron/src/main/browser-pane-manager.ts:3354-3359 | a crash detaches the tab and keeps it in the table |
| BrowserManager.Manager.BindSession | apps/electron/src/main/browser-pane-manager.ts:1937-1951 | the tab becomes the session's, with the workspace if one is given |
| BrowserManager.Manager.UnbindSession | apps/electron/src/main/browser-pane-manager.ts:1953-1961 | the tab becomes manual and keeps its last owner |
| BrowserManager.Manager.UnbindAllForSession | apps/electron/src/main/browser-pane-manager.ts:1964-1975 | every tab bound to the session becomes manual, others are untouched |
| BrowserManager.Manager.GetBoundForSession | apps/electron/src/main/browser-pane-manager.ts:1977-1988 | the session's first open tab, after taking out its closed tabs on the way |
| BrowserManager.Manager.FindReusableUnboundInstance | apps/electron/src/main/browser-pane-manager.ts:2006-2028 | an unbound tab of this or no workspace, one in a visible dock first |
| BrowserManager.Manager.ObtainForSession | apps/electron/src/main/browser-pane-manager.ts:2057-2100 | the tab the session has, or takes over, or a new one |
| BrowserManager.Manager.DestroyForSession | apps/electron/src/main/browser-pane-manager.ts:2125-2131 | exactly the tabs bound to the session leave the table |
| BrowserManager.Manager.SetAgentControl | apps/electron/src/main/browser-pane-manager.ts:2920-2935 | the session's first tab gets the workspace it lacks |
| BrowserManager.Manager.OpenInNewTab | apps/electron/src/main/browser-pane-manager.ts:3563-3580 | a sibling tab with the origin's owner and workspace, also when the origin has left the table |
| BrowserEffects.PushMeans | apps/electron/src/main/browser-pane-manager.ts:420-457 | after a push to a live window the dock is that window's; an open tab is in the window if it is the active one of a dock that can show it, and any other tab in the window leaves it; a push to a window that is gone only drops its dock |
| BrowserEffects.ReleaseMeans | apps/electron/src/main/browser-pane-manager.ts:460-470 | a release drops the window's dock and takes every tab out of that window; without a dock nothing changes |
| BrowserEffects.ReleaseEmpties | apps/electron/src/main/browser-pane-manager.ts:460-470 | after a release in any run the window has no dock, and no tab is in it, except exactly where the window was gone already and had no dock to release |
| BrowserEffects.HideMeans | apps/electron/src/main/browser-pane-manager.ts:1053-1063 | hiding an open tab takes it out of its window, and the first dock whose active tab it is shows none; all else stays; for a missing or closed tab nothing changes |
| BrowserEffects.CreateMeans | apps/electron/src/main/browser-pane-manager.ts:653-755 | under an id not in use the last tab is an open one in no window, owned as asked |
| BrowserEffects.CreateExisting | apps/electron/src/main/browser-pane-manager.ts:653-670 | under an id in use the table stays, and a generated id is used up all the same |
| BrowserEffects.DestroyMeans | apps/electron/src/main/browser-pane-manager.ts:757-803 | exactly the tab of that id leaves the table and its window; the others keep their places |
| BrowserEffects.PageEventsMean | apps/electron/src/main/browser-pane-manager.ts:2297-2313 | a page that is lost, crashes or reports its end: its tab is closed, leaves its window, or leaves the table |
| BrowserEffects.LatePageMeans | apps/electron/src/main/browser-pane-manager.ts:2297-2313 | the late event of a page whose tab has left the table takes whatever tab has its tab's id out of the table and leaves that one's place in its window |
| BrowserEffects.BindingMeans | apps/electron/src/main/browser-pane-manager.ts:1937-1961 | binding and unbinding change exactly the fields of ownership of exactly that tab |
| BrowserEffects.UnbindSessionMeans | apps/electron/src/main/browser-pane-manager.ts:1964-1975 | exactly the tabs bound to the session become manual, and remember it unless they remember another |
| BrowserEffects.RemovalMeans | apps/electron/src/main/browser-pane-manager.ts:2125-2131 | exactly the session's tabs, or exactly the closed ones, leave the table and their windows |
| BrowserEffects.ControlMeans | apps/electron/src/main/browser-pane-manager.ts:2920-2935 | the session's first tab gets the workspace if it has none, and nothing else changes |
| BrowserEffects.OwnTabFirst | apps/electron/src/main/browser-pane-manager.ts:2057-2100 | a session with an open tab of its own is given the first of them |
| BrowserEffects.OtherwiseFreeOrNew | apps/electron/src/main/browser-pane-manager.ts:2057-2100 | a session without one is given a free tab, one on screen if any is, and it is bound to the session; if it may not reuse one, or none is free, it is given a new one |
| BrowserDocks.TabsAreDocked | apps/electron/src/main/browser-pane-manager.ts:420-570 | over every run: a tab in a live window is the active tab of that window's paintable dock, no other tab is in that window, and a tab is visible exactly when it is in a window |
| BrowserDocks.PushShowsActive | apps/electron/src/main/browser-pane-manager.ts:514-526 | right after a push to a live window an open tab is there exactly when it is the active one of a paintable dock |
| BrowserDocks.PushIsIdempotent | apps/electron/src/main/browser-pane-manager.ts:419-457 | pushing the same dock twice is pushing it once |
| BrowserDocks.LateEventsLeaveViews | apps/electron/src/main/browser-pane-manager.ts:2297-2313 | a step leaves an attached tab outside the table exactly when it is the late event of an old page whose id a newer attached tab has |
| BrowserDocks.ViewLeftBehind | apps/electron/src/main/browser-pane-manager.ts:2297-2313 | six steps from the start that do so: create, destroy, create again under the same id, open a window, show the tab, then the old page's event |
| BrowserDocks.NoViewIsForgotten | apps/electron/src/main/browser-pane-manager.ts:757-803 | over every run without such an event, a tab outside the table is attached nowhere |
| BrowserOwnership.OwnershipIsCoupled | apps/electron/src/main/browser-pane-manager.ts:1937-1975 | over every run a session-owned tab is bound to its owner and a manual tab to nobody |
| BrowserOwnership.AdoptionRespectsWorkspace | apps/electron/src/main/browser-pane-manager.ts:2006-2028 | a request changes the binding of an existing tab only by taking over an unbound one of the same or of no workspace |
| BrowserOwnership.SecondRequestSame | apps/electron/src/main/browser-pane-manager.ts:2057-2100 | a request that gives the session a tab of its own gives the same tab again and changes nothing |
| BrowserOwnership.RequestsAreStable | apps/electron/src/main/browser-pane-manager.ts:2057-2100 | after a request the session owns the tab it was given exactly when it already had one, or the tab it took over was open, or the generated id was free |
| BrowserOwnership.IdInUse | apps/electron/src/main/browser-pane-manager.ts:653-670 | with a manual tab of the first generated id, a session is given that tab without owning it, and asking again gives another |
| BrowserOwnership.ClosedTakenOver | apps/electron/src/main/browser-pane-manager.ts:2057-2100 | with one manual tab whose page is gone, a session takes it over and has no open tab, and asking again gives another |
| BrowserOwnership.SessionLetsGo | apps/electron/src/main/browser-pane-manager.ts:1964-1988 | once its tabs are unbound, or destroyed, a session has no tab, whatever else the table holds |
| BrowserOwnership.BindingIsFound | apps/electron/src/main/browser-pane-manager.ts:1937-1988 | a live tab bound to a session is the one found for it, unless an earlier one already is |
| BrowserOwnership.KeyParses | apps/electron/src/main/browser-pane-manager.ts:2574-2588 | an owner key parses back exactly when the workspace id has no colon |
| BrowserOwnership.KeysAreDistinct | apps/electron/src/main/browser-pane-manager.ts:2574-2576 | keys of different sessions differ as long as workspace ids have no colon; with one, two sessions can share a key |
| BrowserOwnership.RemoteTouchesOnlyItsOwn | apps/electron/src/main/browser-pane-manager.ts:2663-2766 | a remote request leaves every open tab that is not its session's entirely unchanged |
| BrowserOwnership.RefusalIsExact | apps/electron/src/main/browser-pane-manager.ts:2605-2615 | a request that names a tab is refused, changing nothing, exactly when the tab is missing, closed or not the session's; otherwise it is carried out for the session |
| BrowserOwnership.OthersAreServed | apps/electron/src/main/browser-pane-manager.ts:2663-2720 | a request that names no tab is never refused, and one that asks for a tab may not take over one that is nobody's |
| PdfLiteral.EscapesInOnePass | apps/electron/resources/scripts/pdf_tool.py:290-292 | the three replacements equal one pass over the text: nothing is escaped twice |
| PdfLiteral.TextSurvives | apps/electron/resources/scripts/pdf_tool.py:290-292 | an escaped text reads back, by section 7.3.4.2 of ISO 32000-1, exactly when it has no carriage return |
| PdfWriter.EntryWidth | apps/electron/resources/scripts/pdf_tool.py:276-277 | a cross-reference entry is 20 bytes wide exactly for offsets below ten to the tenth |
| PdfWriter.TablePointsAtObjects | apps/electron/resources/scripts/pdf_tool.py:237-287 | startxref leads to the table, and entry i holds the offset at which object i begins (section 7.5.4 of ISO 32000-1) |
| PdfWriter.StreamsReadBack | apps/electron/resources/scripts/pdf_tool.py:250-258 | a reader that follows the table finds the data of every stream, as many bytes as its length says |
| PdfPages.MakeTextOverlayPdf | apps/electron/resources/scripts/pdf_tool.py:295-352 | the bytes are the overlay document, or an error exactly when the content cannot be encoded |
| PdfPages.MakeWatermarkPdf | apps/electron/resources/scripts/pdf_tool.py:172-287 | the bytes are the watermark document, or an error exactly when the content cannot be encoded |
| PdfPages.PilToImagePdfPage | apps/electron/resources/scripts/pdf_tool.py:355-416 | the bytes are the image document |
| PdfPages.OverlayReadsBack | apps/electron/resources/scripts/pdf_tool.py:295-352 | a reader finds exactly the texts that were put in, in order, unchanged exactly when none has a carriage return |
| PdfPages.WatermarkReadsBack | apps/electron/resources/scripts/pdf_tool.py:186-287 | a reader finds the one text of a watermark, unchanged exactly when it has no carriage return |
| PdfPages.ImageReadsBack | apps/electron/resources/scripts/pdf_tool.py:355-416 | a reader finds the drawing commands and the compressed image, byte for byte |
| PdfPages.FilesAreHeaded | apps/electron/resources/scripts/pdf_tool.py:172-416 | in the files of all three kinds every object stands under its own number |
| PdfPages.EveryObjectFound | apps/electron/resources/scripts/pdf_tool.py:172-416 | in every such file below ten to the tenth bytes the cross-reference table leads from the number of each object to that object |
| PdfReader.OverlayOpens | apps/electron/resources/scripts/pdf_tool.py:295-352 | from the trailer a reader reaches, reference by reference, a page of the size asked for, its content and its font |
| PdfReader.WatermarkOpens | apps/electron/resources/scripts/pdf_tool.py:186-287 | the same, and a graphics state with the opacity asked for |
| PdfReader.ImageOpens | apps/electron/resources/scripts/pdf_tool.py:355-416 | the same, and an image of the given width, height, colours and compression |
| PdfReader.OverlayContent | apps/electron/resources/scripts/pdf_tool.py:300-311 | token by token, each text stands between its colour, font, size and place and the move back from it, in order |
| PdfReader.WatermarkContent | apps/electron/resources/scripts/pdf_tool.py:188-200 | token by token, the text stands behind its colour, font, size and matrix |
| PdfReader.ImageContent | apps/electron/resources/scripts/pdf_tool.py:379-381 | token by token, the image is scaled to its own width and height |
| PdfReader.RefusedExactly | apps/electron/resources/scripts/pdf_tool.py:201-202 | a content stream is refused exactly for a character beyond the 256 of Latin-1 |
| PageRange.ParsePageRange | apps/electron/resources/scripts/pdf_tool.py:71-136 | the loops compute the specified parse, every error included |
| PageRange.ParseSucceeds | apps/electron/resources/scripts/pdf_tool.py:71-136 | parsing succeeds exactly when there are pages, the text is not blank and every segment is good; otherwise the first bad segment is reported; the final emptiness check never fires |
| PageRange.ParsedPages | apps/electron/resources/scripts/pdf_tool.py:84-136 | a successful parse gives exactly the pages the segments cover, each once, all within the document, and at least one |
| PageRange.FirstsInOrder | apps/electron/resources/scripts/pdf_tool.py:115-131 | pages come in the order of their first occurrence |
| PageRange.WrittenRangeParses | apps/electron/resources/scripts/pdf_tool.py:71-136 | any list of good segments, written out, parses to the pages it lists in order of first occurrence |
| PageRange.PagesRoundTrip | apps/electron/resources/scripts/pdf_tool.py:71-136 | a list of different pages printed one by one parses back to itself |
| PageRangeLaws.IntReads | apps/electron/resources/scripts/pdf_tool.py:84-112 | digits in groups with single underscores between them, with a sign or none and white space around, are read as their number |
| PageRangeLaws.IntReadsOnly | apps/electron/resources/scripts/pdf_tool.py:84-112 | no other text is read as a number |
| PageRangeLaws.StripMeans | apps/electron/resources/scripts/pdf_tool.py:78-96 | exactly the white space at both ends is stripped |
| PageRangeLaws.PageVerdict | apps/electron/resources/scripts/pdf_tool.py:84-131 | any segment without a hyphen: a page of the document, or the error that says what is wrong |
| PageRangeLaws.RangeVerdict | apps/electron/resources/scripts/pdf_tool.py:84-131 | any segment with one hyphen: the pages between two numbers, or the error that says what is wrong, in the order of the checks |
| PageRangeLaws.HyphensVerdict | apps/electron/resources/scripts/pdf_tool.py:84-131 | any segment with more than one hyphen is malformed |
| PageRange.SplitPages | apps/electron/resources/scripts/pdf_tool.py:598-607 | the pages a split writes, with and without exclusion, and its errors |
| PageRange.SplitsPartition | apps/electron/resources/scripts/pdf_tool.py:600-607 | selecting and excluding the same range part the document; the rest ascends; excluding fails exactly when the range is bad or covers every page |

## Left out

- JSON numbers are integers, and the parser refuses surrogate escapes; both are details of the texts, not of the passes.
- Keys that look like integers and the key `__proto__`, which JavaScript orders or treats specially, are ordinary keys here.
- The UTF-8 decoder: streams are sequences of characters, and what a decoder holds back of a character at the end is not modelled.
- Fields of another JSON type than the code declares count as absent; where JavaScript would throw on them, only the cases named in the table are modelled.
- Arguments texts with a fraction, an exponent or a surrogate escape count as texts that do not parse; the injection passes leave them alone. An Anthropic `input` that is not an object counts as absent.
- A data event that is the JSON text `null` is passed on; in the code reading a field of it throws, which ends the stream.
- AnthropicText.TextMeaningPreserved: texts whose events are an `event:` line, a `data:` line and a blank line; comments, other fields, unspaced fields and carriage returns, which the code accepts in part, are left to the step functions.
- A body without a message or input list is not modelled; the passes return at once. Absent elements are modelled in the Responses history only.
- `stripMetadataFieldsFromRawJson`: what it makes of text that looks like a metadata field inside a longer string is best effort by design, and no claim is made about it.
- Time stamps, random parts of ids and clock readings are arguments of the operations; the monotone clock gives real numbers, so rounding is not modelled.
- MetadataStore.RestartRecovers: assumes a single writer and successful file access, as the retries and concurrent writers of the code are beyond one process.
- MetadataStore: ids such as `constructor`, which a parsed JavaScript object inherits, are ordinary ids here.
- Handshakes: a call goes on at a separate step after its waiter is settled, so a run may interleave more than the event loop does; approvals of MCP servers are not modelled.
- Handshakes: a prefetched call is sent without asking for approval, as in the code; what follows a local tool's start is not modelled.
- ElementRefs: element ids are integers, letters other than ASCII are not lower-cased, and counters that only feed the log are dropped.
- BrowserDocks: the screenshot rescue, which holds a dock object across awaits while a push replaces it, is not modelled.
- BrowserPane: windows are named by their ids, which are never reused; views, page loading, titles, themes, downloads and the agent's overlay are not modelled, nor is focus, which changes no state here; bounds arrive already scaled.
- BrowserPane: the unused relayout of all docks is not modelled.
- BrowserOwnership.RemoteTouchesOnlyItsOwn: the methods that only look at or drive a page are one request kind, and its effect on the page is not modelled.
- PageRange: text outside ASCII, where Python accepts further digits and white space, is not a number here; Python's limit on the digits of a number, past which it reports the segment as malformed, is not modelled.
- PdfPages: numbers arrive as the program prints them; compression is not modelled; the first, discarded assembly of the watermark file is dropped.
- Request patching, proxies, headers, cache lifetimes, error capture and logging; Electron views and browser commands; SDK sessions, model registries, MCP and skills; build scripts and user interfaces: glue around foreign code, or easy members only.
