/** The relays' shapes as whole streams of text. */
module OpenAiRelayText {
  import opened Options
  import opened Text
  import opened ToolMetadata
  import opened DataEvents
  import opened OpenAiStream
  import opened OpenAiConservation
  import opened OpenAiText
  import opened OpenAiRelays
  import F = OpenAiFinish

  function Spaced(datas: seq<string>): (lines: seq<DataText>)
    ensures |lines| == |datas| && forall i :: 0 <= i < |lines| ==> lines[i] == DataText(datas[i], true)
  {
    seq(|datas|, i requires 0 <= i < |datas| => DataText(datas[i], true))
  }

  /** The tool deltas that some data events bring, in order. */
  function DeltasIn(datas: seq<string>): seq<(int, ToolDelta)> {
    if datas == [] then [] else DeltasIn(Init(datas)) + FoundIn(DataLine(Last(datas)))
  }

  /** None of the events makes the stream flush. */
  predicate Gathers(datas: seq<string>) {
    forall i :: 0 <= i < |datas| ==> !F.Flushes(datas[i])
  }

  /** None of the events carries tool calls. */
  predicate ToolFree(datas: seq<string>) {
    forall i :: 0 <= i < |datas| ==> !ToolLine(DataLine(datas[i]))
  }

  lemma ApplyFrame(c: Core, choice: int, d: ToolDelta, outs: seq<Out>)
    ensures Apply(c.(emitted := outs), choice, d) == Apply(c, choice, d).(emitted := outs)
  {
    hide SortCalls, InChoice, Find, Set;
  }

  lemma {:induction false} ApplyAllFrame(c: Core, deltas: seq<(int, ToolDelta)>, outs: seq<Out>)
    ensures ApplyAll(c.(emitted := outs), deltas) == ApplyAll(c, deltas).(emitted := outs)
    decreases |deltas|
  {
    hide Apply;
    if deltas != [] {
      ApplyFrame(c, deltas[0].0, deltas[0].1, outs);
      ApplyAllFrame(Apply(c, deltas[0].0, deltas[0].1), deltas[1..], outs);
    }
  }

  lemma NothingFound(data: string)
    requires !ToolLine(DataLine(data))
    ensures FoundIn(DataLine(data)) == []
  {
    if PayloadOf(data).Choices? {
      NoToolsNoDeltas(PayloadOf(data).choices);
    }
  }

  lemma GatherOne(c: Core, data: string)
    requires !F.Flushes(data) && Found(c.emitted) == []
    ensures var c' := Process(c, data);
      c'.(emitted := []) == ApplyAll(c.(emitted := []), FoundIn(DataLine(data))) && Found(c'.emitted) == []
  {
    hide PayloadOf, ApplyAll, Deltas, CarriesTools, HasFinish, Found, F.Flushes;
    F.FlushesMeans(data);
    if ToolLine(DataLine(data)) {
      var deltas := Deltas(PayloadOf(data).choices);
      ApplyAllFrame(c, deltas, []);
      ApplyAllEmits(c, deltas);
    } else {
      NothingFound(data);
      FoundSnoc(c.emitted, DataLine(data));
      NoDeltas(c.(emitted := []));
    }
  }

  lemma NoDeltas(c: Core)
    ensures ApplyAll(c, []) == c
  {
  }

  lemma {:induction false} GatherAll(store: Store, datas: seq<string>)
    requires Gathers(datas)
    ensures var c := StepEach(Start(store), Spaced(datas));
      c.(emitted := []) == ApplyAll(Start(store), DeltasIn(datas)) && Found(c.emitted) == []
  {
    hide Process, ApplyAll, F.Flushes, FoundIn;
    NoDeltas(Start(store));
    if datas != [] {
      var before := StepEach(Start(store), Spaced(Init(datas)));
      GatherAll(store, Init(datas));
      assert Init(Spaced(datas)) == Spaced(Init(datas));
      GatherOne(before, Last(datas));
      ApplyAllAppend(Start(store), DeltasIn(Init(datas)), FoundIn(DataLine(Last(datas))));
    }
  }

  /** What has been sent, followed by what a flush would send. */
  function Owed(c: Core): seq<(int, ToolDelta)> {
    Found(c.emitted) + Reports(SortCalls(c.calls))
  }

  lemma NothingTracked()
    ensures SortCalls([]) == [] && Reports([]) == []
  {
  }

  lemma FlushPays(c: Core)
    requires Invariant(c)
    ensures Invariant(Flush(c)) && Flush(c).calls == [] && Owed(Flush(c)) == Found(Flush(c).emitted) == Owed(c)
  {
    hide Invariant, Flush, Found, Reports, SortCalls;
    FlushSends(c);
    NothingTracked();
    assert Found(Flush(c).emitted) + [] == Found(Flush(c).emitted);
  }

  lemma EmitOwes(c: Core, data: string)
    requires Invariant(c) && !ToolLine(DataLine(data))
    ensures Invariant(Emit(c, DataLine(data))) && Owed(Emit(c, DataLine(data))) == Owed(c)
  {
    hide Found, Reports, SortCalls, ToolLine, OnePerKey, AllComplete;
    NothingFound(data);
    FoundSnoc(c.emitted, DataLine(data));
    assert Found(c.emitted) + [] == Found(c.emitted);
  }

  lemma PassOne(c: Core, data: string)
    requires Invariant(c) && !ToolLine(DataLine(data))
    ensures Invariant(Process(c, data)) && Owed(Process(c, data)) == Owed(c)
  {
    hide Invariant, Owed, Flush, Emit, CarriesTools, HasFinish;
    FlushPays(c);
    EmitOwes(c, data);
    EmitOwes(Flush(c), data);
  }

  lemma {:induction false} PassAll(c: Core, datas: seq<string>)
    requires Invariant(c) && ToolFree(datas)
    ensures var c' := StepEach(c, Spaced(datas)); Invariant(c') && Owed(c') == Owed(c)
  {
    hide Process, Invariant, Owed, ToolLine;
    if datas != [] {
      PassAll(c, Init(datas));
      assert Init(Spaced(datas)) == Spaced(Init(datas));
      PassOne(StepEach(c, Spaced(Init(datas))), Last(datas));
    }
  }

  lemma {:induction false} StepEachAppend(c: Core, a: seq<DataText>, b: seq<DataText>)
    ensures StepEach(c, a + b) == StepEach(StepEach(c, a), b)
  {
    hide StepData;
    if b == [] {
      assert a + b == a;
    } else {
      assert Init(a + b) == a + Init(b);
      StepEachAppend(c, a, Init(b));
    }
  }

  /**
   * Data events that bring tool deltas, among any others that do not make the stream flush, and then any events
   * without tool calls: however the text is cut, what is sent on are the calls the deltas collect.
   */
  lemma TextSends(store: Store, body: seq<string>, tail: seq<string>, chunks: seq<string>)
    requires AllPlain(Spaced(body + tail)) && Flatten(chunks) == Written(Spaced(body + tail))
    requires Gathers(body) && ToolFree(tail)
    ensures Found(Run(store, chunks).emitted) == Found(Flush(ApplyAll(Start(store), DeltasIn(body))).emitted)
  {
    hide Invariant, AllPlain, Written, Run, Flush, StepEach, Owed, Gathers, ToolFree, Found, ApplyAll;
    var gathered := ApplyAll(Start(store), DeltasIn(body));
    var c := StepEach(Start(store), Spaced(body));
    var c' := StepEach(c, Spaced(tail));
    RunOnWritten(store, Spaced(body + tail), chunks);
    assert Spaced(body + tail) == Spaced(body) + Spaced(tail);
    StepEachAppend(Start(store), Spaced(body), Spaced(tail));
    GatherAll(store, body);
    StartsWell(store);
    ApplyAllBalances(Key(0, 0, ""), Start(store), DeltasIn(body));
    SameInvariant(c, gathered);
    PassAll(c, tail);
    OwedAlike(c, gathered);
    FlushPays(gathered);
    FlushPays(c');
    if c'.calls == [] {
      OwedNone(c');
    }
  }

  lemma StartsWell(store: Store)
    ensures Invariant(Start(store)) && Found(Start(store).emitted) == []
  {
  }

  lemma SameInvariant(c: Core, d: Core)
    requires c.(emitted := []) == d && Invariant(d)
    ensures Invariant(c)
  {
  }

  lemma OwedAlike(c: Core, d: Core)
    requires c.(emitted := []) == d && Found(c.emitted) == []
    ensures Owed(c) == Owed(d)
  {
    assert Found([]) == [];
  }

  lemma OwedNone(c: Core)
    requires c.calls == []
    ensures Owed(c) == Found(c.emitted)
  {
    NothingTracked();
    assert Found(c.emitted) + [] == Found(c.emitted);
  }

  /**
   * Text to text: one list of calls sent by two relays, by the one in any mix of the standard, id-repeating and
   * index-dropping shapes, by the other with complete objects at shifted indices; each spread over data events in
   * any way, among other events, and cut into chunks in any way. A reader finds the same consolidated calls in both
   * outputs exactly when, call by call, the text of the one means what head and object of the other mean.
   */
  lemma RelaysAgreeOnText(
      store: Store, choice: int, headers: seq<Header>, texts: seq<string>, ops: seq<Op>, heads: seq<string>, objects: seq<string>,
      body: seq<string>, tail: seq<string>, chunks: seq<string>,
      shifting: seq<string>, ending: seq<string>, others: seq<string>)
    requires |headers| == |texts| == |heads| == |objects|
    requires forall k :: 0 <= k < |headers| ==> headers[k].id != "" && objects[k] != ""
    requires AllPlain(Spaced(body + tail)) && Flatten(chunks) == Written(Spaced(body + tail)) && Gathers(body) && ToolFree(tail)
    requires AllPlain(Spaced(shifting + ending)) && Flatten(others) == Written(Spaced(shifting + ending))
    requires Gathers(shifting) && ToolFree(ending)
    requires ShowsAll(Start(store), ops, DeltasIn(body))
    requires forall ch, t :: Collected(ops, ch, t) == Listed(choice, headers, texts, ch, t)
    requires DeltasIn(shifting) == Shifted(choice, headers, heads, objects)
    ensures SameCalls(Found(Run(store, chunks).emitted), Found(Run(store, others).emitted))
       <==> forall k :: 0 <= k < |headers| ==> Agree(texts[k], heads[k], objects[k])
  {
    hide *;
    TextSends(store, body, tail, chunks);
    TextSends(store, shifting, ending, others);
    RelaysAgree(store, choice, headers, texts, ops, DeltasIn(body), heads, objects);
  }
}
