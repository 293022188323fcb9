/** What every run of the OpenAI stream keeps: no tool call is lost, invented or sent twice. */
module OpenAiConservation {
  import opened Options
  import opened Text
  import opened Json
  import opened ToolMetadata
  import opened DataEvents
  import opened OpenAiStream
  import LineFeed

  // ----- the invariant of the tracked calls -----

  predicate SameKey(a: Call, b: Call) {
    a.choice == b.choice && a.tool == b.tool
  }

  predicate OnePerKey(calls: seq<Call>) {
    forall i, j :: 0 <= i < j < |calls| ==> !SameKey(calls[i], calls[j])
  }

  predicate Complete(call: Call) {
    call.id != "" && call.name != "" && call.kind != ""
  }

  predicate AllComplete(calls: seq<Call>) {
    forall i :: 0 <= i < |calls| ==> Complete(calls[i])
  }

  predicate Invariant(c: Core) {
    OnePerKey(c.calls) && AllComplete(c.calls) && (c.buffering <==> c.calls != [])
  }

  lemma {:induction false} FindNone(calls: seq<Call>, choice: int, tool: int)
    requires forall k :: 0 <= k < |calls| ==> calls[k].choice != choice || calls[k].tool != tool
    ensures Find(calls, choice, tool) == None
  {
    if calls != [] {
      FindNone(calls[1..], choice, tool);
    }
  }

  lemma {:induction false} FindSome(calls: seq<Call>, call: Call)
    requires OnePerKey(calls) && call in calls
    ensures Find(calls, call.choice, call.tool) == Some(call)
  {
    if calls[0] != call {
      assert call in calls[1..];
      var k :| 0 <= k < |calls[1..]| && calls[1..][k] == call;
      assert calls[k + 1] == call;
      FindSome(calls[1..], call);
    }
  }

  function FindAfter(calls: seq<Call>, call: Call, choice: int, tool: int): Option<Call> {
    if choice == call.choice && tool == call.tool then Some(call) else Find(calls, choice, tool)
  }

  /** Setting a call touches no other key. */
  lemma {:induction false} SetThenFind(calls: seq<Call>, call: Call)
    requires OnePerKey(calls)
    ensures OnePerKey(Set(calls, call))
    ensures forall choice, tool :: Find(Set(calls, call), choice, tool) == FindAfter(calls, call, choice, tool)
    ensures forall k :: 0 <= k < |Set(calls, call)| ==> Set(calls, call)[k] == call || Set(calls, call)[k] in calls
    ensures Set(calls, call) != []
  {
    if calls != [] && SameKey(calls[0], call) {
      assert Set(calls, call)[1..] == calls[1..];
      FindNone(calls[1..], call.choice, call.tool);
    } else if calls != [] {
      SetThenFind(calls[1..], call);
      var r := Set(calls[1..], call);
      forall k | 0 <= k < |r|
        ensures !SameKey(calls[0], r[k])
      {
        if r[k] != call {
          var j :| 0 <= j < |calls[1..]| && calls[1..][j] == r[k];
          assert calls[j + 1] == r[k];
        }
      }
    }
  }

  // ----- what a delta opens and replaces -----

  datatype Key = Key(choice: int, tool: int, id: string)

  function KeyOf(call: Call): Key {
    Key(call.choice, call.tool, call.id)
  }

  /** How many of the calls have this key and id. */
  function Count(k: Key, calls: seq<Call>): nat {
    if calls == [] then 0 else Count(k, calls[1..]) + One(KeyOf(calls[0]) == k)
  }

  function One(b: bool): nat {
    if b then 1 else 0
  }

  /** The call under the key a delta resolves to, unless the delta belongs to that call. */
  function Pushed(c: Core, choice: int, d: ToolDelta): Option<Call> {
    match Find(c.calls, choice, ToolIndex(c, choice, d))
    case Some(call) => if d.id != "" && d.id != call.id then Some(call) else None
    case None => None
  }

  /** A delta opens a call when it carries an id its key does not already have. */
  predicate Opens(c: Core, choice: int, d: ToolDelta) {
    d.id != "" && (Find(c.calls, choice, ToolIndex(c, choice, d)) == None || Pushed(c, choice, d).Some?)
  }

  function OpenedAll(k: Key, c: Core, deltas: seq<(int, ToolDelta)>): nat
    decreases |deltas|
  {
    if deltas == [] then 0
    else
      var (choice, d) := deltas[0];
      One(Opens(c, choice, d) && Key(choice, ToolIndex(c, choice, d), d.id) == k)
      + OpenedAll(k, Apply(c, choice, d), deltas[1..])
  }

  /** The calls a later delta with another id replaced under their key. */
  function ReplacedAll(k: Key, c: Core, deltas: seq<(int, ToolDelta)>): nat
    decreases |deltas|
  {
    if deltas == [] then 0
    else
      var (choice, d) := deltas[0];
      One(Pushed(c, choice, d).Some? && KeyOf(Pushed(c, choice, d).value) == k)
      + ReplacedAll(k, Apply(c, choice, d), deltas[1..])
  }

  lemma {:induction false} SetCount(k: Key, calls: seq<Call>, call: Call)
    ensures var before := Find(calls, call.choice, call.tool);
      Count(k, Set(calls, call)) + One(before.Some? && KeyOf(before.value) == k) == Count(k, calls) + One(KeyOf(call) == k)
  {
    if calls == [] {
      assert [call][1..] == [];
    } else if SameKey(calls[0], call) {
      assert Set(calls, call)[1..] == calls[1..];
    } else {
      SetCount(k, calls[1..], call);
      assert Set(calls, call)[1..] == Set(calls[1..], call);
    }
  }

  lemma {:induction false} SortedMember(calls: seq<Call>)
    ensures multiset(SortCalls(calls)) == multiset(calls)
  {
    if calls != [] {
      SortedMember(Init(calls));
      InsertMember(Last(calls), SortCalls(Init(calls)));
      assert calls == Init(calls) + [Last(calls)];
    }
  }

  lemma {:induction false} InsertMember(call: Call, sorted: seq<Call>)
    ensures multiset(InsertCall(call, sorted)) == multiset(sorted) + multiset{call}
  {
    if sorted != [] && !Before(call, sorted[0]) {
      InsertMember(call, sorted[1..]);
      assert sorted == [sorted[0]] + sorted[1..];
    }
  }

  lemma {:induction false} InChoiceMember(calls: seq<Call>, choice: int)
    ensures forall call :: call in InChoice(calls, choice) ==> call in calls && call.choice == choice
  {
    if calls != [] {
      InChoiceMember(calls[1..], choice);
    }
  }

  lemma ShiftTargetTracked(c: Core, choice: int, d: ToolDelta)
    requires ShiftTarget(c, choice, d).Some?
    ensures ShiftTarget(c, choice, d).value in c.calls
  {
    var mine := InChoice(c.calls, choice);
    var call := ShiftTarget(c, choice, d).value;
    SortedMember(mine);
    assert call in multiset(SortCalls(mine));
    InChoiceMember(c.calls, choice);
  }

  lemma SetInvariant(calls: seq<Call>, call: Call)
    requires OnePerKey(calls) && AllComplete(calls) && Complete(call)
    ensures OnePerKey(Set(calls, call)) && AllComplete(Set(calls, call)) && Set(calls, call) != []
  {
    SetThenFind(calls, call);
  }

  /** One delta keeps the invariant and balances its account. */
  lemma ApplyBalances(k: Key, c: Core, choice: int, d: ToolDelta)
    requires Invariant(c)
    ensures Invariant(Apply(c, choice, d)) && Apply(c, choice, d).emitted == c.emitted
    ensures Count(k, Apply(c, choice, d).calls) + One(Pushed(c, choice, d).Some? && KeyOf(Pushed(c, choice, d).value) == k)
         == Count(k, c.calls) + One(Opens(c, choice, d) && Key(choice, ToolIndex(c, choice, d), d.id) == k)
  {
    var tool := ToolIndex(c, choice, d);
    var found := Find(c.calls, choice, tool);
    var target := ShiftTarget(c, choice, d);
    if Opens(c, choice, d) {
      SetCount(k, c.calls, Open(choice, tool, d));
      SetInvariant(c.calls, Open(choice, tool, d));
    } else if found.Some? {
      var name := if d.id != "" && d.name != "" && found.value.name == "unknown" then d.name else found.value.name;
      var call := found.value.(args := found.value.args + d.args, name := name);
      SetCount(k, c.calls, call);
      SetInvariant(c.calls, call);
    } else if target.Some? {
      var call := target.value.(shifted := target.value.shifted + [d.args]);
      ShiftTargetTracked(c, choice, d);
      FindSome(c.calls, target.value);
      SetCount(k, c.calls, call);
      SetInvariant(c.calls, call);
    }
  }

  lemma {:induction false} ApplyAllBalances(k: Key, c: Core, deltas: seq<(int, ToolDelta)>)
    requires Invariant(c)
    ensures Invariant(ApplyAll(c, deltas)) && ApplyAll(c, deltas).emitted == c.emitted
    ensures Count(k, ApplyAll(c, deltas).calls) + ReplacedAll(k, c, deltas) == Count(k, c.calls) + OpenedAll(k, c, deltas)
    decreases |deltas|
  {
    if deltas != [] {
      var (choice, d) := deltas[0];
      ApplyBalances(k, c, choice, d);
      ApplyAllBalances(k, Apply(c, choice, d), deltas[1..]);
    }
  }

  // ----- what a flush sends -----

  predicate StrictlySorted(calls: seq<Call>) {
    forall i, j :: 0 <= i < j < |calls| ==>
      calls[i].choice < calls[j].choice || (calls[i].choice == calls[j].choice && calls[i].tool < calls[j].tool)
  }

  lemma {:induction false} InsertSorted(call: Call, sorted: seq<Call>)
    requires StrictlySorted(sorted) && forall k :: 0 <= k < |sorted| ==> !SameKey(call, sorted[k])
    ensures StrictlySorted(InsertCall(call, sorted))
  {
    if sorted != [] && !Before(call, sorted[0]) {
      InsertSorted(call, sorted[1..]);
      InsertMember(call, sorted[1..]);
      var r := InsertCall(call, sorted[1..]);
      forall k | 0 <= k < |r|
        ensures Before(sorted[0], r[k])
      {
        assert r[k] in multiset(r);
        if r[k] != call {
          assert r[k] in sorted[1..];
        }
      }
    }
  }

  lemma {:induction false} SortSorts(calls: seq<Call>)
    requires OnePerKey(calls)
    ensures StrictlySorted(SortCalls(calls)) && multiset(SortCalls(calls)) == multiset(calls)
  {
    SortedMember(calls);
    if calls != [] {
      SortSorts(Init(calls));
      var sorted := SortCalls(Init(calls));
      forall k | 0 <= k < |sorted|
        ensures !SameKey(Last(calls), sorted[k])
      {
        assert sorted[k] in multiset(sorted);
        assert sorted[k] in Init(calls);
      }
      InsertSorted(Last(calls), sorted);
    }
  }

  /** The tool deltas a reader finds in one enqueued piece. */
  function FoundIn(out: Out): seq<(int, ToolDelta)> {
    match out
    case RawLine(_) => []
    case DataLine(data) =>
      match PayloadOf(data)
      case Choices(choices) => Deltas(choices)
      case _ => []
  }

  function Found(outs: seq<Out>): seq<(int, ToolDelta)> {
    if outs == [] then [] else Found(Init(outs)) + FoundIn(Last(outs))
  }

  /** How a reader sees a consolidated call. */
  function Report(call: Call): (int, ToolDelta) {
    (call.choice, ToolDelta(Some(call.tool), call.id, call.kind, call.name, OutArgs(call)))
  }

  function Reports(calls: seq<Call>): seq<(int, ToolDelta)> {
    if calls == [] then [] else [Report(calls[0])] + Reports(calls[1..])
  }

  /** An event with one tool-call delta, written the way the API writes it. */
  function ToolEvent(choice: int, tool: int, id: string, kind: string, name: string, arguments: string): Json {
    var f := Obj([Field("name", Str(name)), Field("arguments", Str(arguments))]);
    var tc := Obj([Field("index", Num(tool)), Field("id", Str(id)), Field("type", Str(kind)), Field("function", f)]);
    Obj([Field("choices", Arr([Obj([Field("index", Num(choice)), Field("delta", Obj([Field("tool_calls", Arr([tc]))]))])]))])
  }

  lemma FunctionReads(name: string, arguments: string)
    ensures var f := Obj([Field("name", Str(name)), Field("arguments", Str(arguments))]);
      WellFormed(f) && TextOf(f, "name") == name && TextOf(f, "arguments") == arguments
  {
    var a, b := Field("name", Str(name)), Field("arguments", Str(arguments));
    assert [a] + [b] == [a, b] && [b] + [] == [b];
    GetCons(a, [b], "name");
    GetCons(a, [b], "arguments");
    GetCons(b, [], "arguments");
  }

  lemma ToolReads(tool: int, id: string, kind: string, name: string, arguments: string, f: Json)
    requires WellFormed(f) && TextOf(f, "name") == name && TextOf(f, "arguments") == arguments
    ensures var tc := Obj([Field("index", Num(tool)), Field("id", Str(id)), Field("type", Str(kind)), Field("function", f)]);
      WellFormed(tc) && ToolDeltaOf(tc) == ToolDelta(Some(tool), id, kind, name, arguments)
  {
    hide Get, WellFormed;
    var a, b, c, d := Field("index", Num(tool)), Field("id", Str(id)), Field("type", Str(kind)), Field("function", f);
    GetFour(a, b, c, d, "index");
    GetFour(a, b, c, d, "id");
    GetFour(a, b, c, d, "type");
    GetFour(a, b, c, d, "function");
    FourWellFormed(a, b, c, d);
  }

  lemma FourWellFormed(a: Field, b: Field, c: Field, d: Field)
    requires a.key != b.key && a.key != c.key && a.key != d.key && b.key != c.key && b.key != d.key && c.key != d.key
    requires WellFormed(a.value) && WellFormed(b.value) && WellFormed(c.value) && WellFormed(d.value)
    ensures WellFormed(Obj([a, b, c, d]))
  {
  }

  lemma ChoiceReads(choice: int, tc: Json)
    requires WellFormed(tc)
    ensures var j := Obj([Field("index", Num(choice)), Field("delta", Obj([Field("tool_calls", Arr([tc]))]))]);
      WellFormed(j) && ChoiceOf(j) == Choice(Some(choice), Some([ToolDeltaOf(tc)]), "")
  {
    var inner := Obj([Field("tool_calls", Arr([tc]))]);
    var a, b := Field("index", Num(choice)), Field("delta", inner);
    InnerReads(tc);
    GetTwo(a, b, "index");
    GetTwo(a, b, "delta");
    GetTwo(a, b, "finish_reason");
    TwoWellFormed(a, b);
  }

  lemma InnerReads(tc: Json)
    requires WellFormed(tc)
    ensures var inner := Obj([Field("tool_calls", Arr([tc]))]);
      WellFormed(inner) && FieldOf(inner, "tool_calls") == Some(Arr([tc])) && ToolDeltasOf([tc]) == [ToolDeltaOf(tc)]
  {
    var tools := Field("tool_calls", Arr([tc]));
    assert WellFormed(Arr([tc]));
    GetCons(tools, [], "tool_calls");
    assert [tools] + [] == [tools];
  }

  lemma TwoWellFormed(a: Field, b: Field)
    requires a.key != b.key && WellFormed(a.value) && WellFormed(b.value)
    ensures WellFormed(Obj([a, b]))
  {
  }

  lemma BodyReads(choice: Json)
    requires WellFormed(choice)
    ensures WellFormed(Obj([Field("choices", Arr([choice]))]))
    ensures FieldOf(Obj([Field("choices", Arr([choice]))]), "choices") == Some(Arr([choice]))
  {
    var a := Field("choices", Arr([choice]));
    assert WellFormed(Arr([choice]));
    assert [a] + [] == [a];
    GetCons(a, [], "choices");
  }

  /** Such an event is read as the one delta it was written for. */
  lemma ToolEventReads(choice: int, tool: int, id: string, kind: string, name: string, arguments: string)
    ensures PayloadOf(Print(ToolEvent(choice, tool, id, kind, name, arguments)))
         == Choices([Choice(Some(choice), Some([ToolDelta(Some(tool), id, kind, name, arguments)]), "")])
  {
    var f := Obj([Field("name", Str(name)), Field("arguments", Str(arguments))]);
    var tc := Obj([Field("index", Num(tool)), Field("id", Str(id)), Field("type", Str(kind)), Field("function", f)]);
    var j := Obj([Field("index", Num(choice)), Field("delta", Obj([Field("tool_calls", Arr([tc]))]))]);
    FunctionReads(name, arguments);
    ToolReads(tool, id, kind, name, arguments, f);
    ChoiceReads(choice, tc);
    BodyReads(j);
    PayloadReads(ToolEvent(choice, tool, id, kind, name, arguments), j);
  }

  /** The consolidated event is written the way the API writes it, and reads back as exactly its call. */
  lemma ConsolidatedReads(call: Call)
    ensures Consolidated(call) == ToolEvent(call.choice, call.tool, call.id, call.kind, call.name, OutArgs(call))
    ensures PayloadOf(Print(Consolidated(call))) == Choices([Choice(Some(call.choice), Some([Report(call).1]), "")])
  {
    hide OutArgs, PayloadOf, Print;
    ToolEventReads(call.choice, call.tool, call.id, call.kind, call.name, OutArgs(call));
  }

  lemma PayloadReads(body: Json, choice: Json)
    requires body.Obj? && WellFormed(body) && FieldOf(body, "choices") == Some(Arr([choice]))
    ensures PayloadOf(Print(body)) == Choices([ChoiceOf(choice)])
  {
    RoundTrip(body);
    assert Print(body)[0] == '{';
    assert ChoicesOf([choice]) == [ChoiceOf(choice)];
  }

  lemma ReportFound(call: Call)
    ensures FoundIn(DataLine(Print(Consolidated(call)))) == [Report(call)]
  {
    hide PayloadOf, Consolidated, Print, OutArgs;
    ConsolidatedReads(call);
    var one := Choice(Some(call.choice), Some([Report(call).1]), "");
    assert [one][1..] == [];
    assert Deltas([one]) == At(call.choice, [Report(call).1]) + Deltas([]);
  }

  lemma FoundSnoc(outs: seq<Out>, out: Out)
    ensures Found(outs + [out]) == Found(outs) + FoundIn(out)
  {
    assert Init(outs + [out]) == outs;
  }

  lemma {:induction false} FlushCallsReports(c: Core, calls: seq<Call>)
    ensures Found(FlushCalls(c, calls).emitted) == Found(c.emitted) + Reports(calls)
    decreases |calls|
  {
    if calls != [] {
      FoundSnoc(c.emitted, DataLine(Print(Consolidated(calls[0]))));
      ReportFound(calls[0]);
      FlushCallsReports(FlushCall(c, calls[0]), calls[1..]);
    }
  }

  /** A flush sends each tracked call once, strictly sorted by choice and tool index, and forgets them all. */
  lemma FlushSends(c: Core)
    requires Invariant(c)
    ensures Found(Flush(c).emitted) == Found(c.emitted) + Reports(SortCalls(c.calls))
    ensures StrictlySorted(SortCalls(c.calls)) && multiset(SortCalls(c.calls)) == multiset(c.calls)
    ensures Flush(c).calls == [] && Invariant(Flush(c))
  {
    FlushCallsReports(c, SortCalls(c.calls));
    SortSorts(c.calls);
  }

  // ----- a whole stream -----

  function DeltaKey(found: (int, ToolDelta)): Key {
    Key(found.0, found.1.index.GetOr(0), found.1.id)
  }

  /** How many of the tool deltas found are reports of this key and id. */
  function Sent(k: Key, found: seq<(int, ToolDelta)>): nat {
    if found == [] then 0 else Sent(k, Init(found)) + One(DeltaKey(Last(found)) == k)
  }

  lemma {:induction false} SentAppend(k: Key, a: seq<(int, ToolDelta)>, b: seq<(int, ToolDelta)>)
    ensures Sent(k, a + b) == Sent(k, a) + Sent(k, b)
  {
    if b == [] {
      assert a + b == a;
    } else {
      assert Init(a + b) == a + Init(b) && Last(a + b) == Last(b);
      SentAppend(k, a, Init(b));
    }
  }

  lemma {:induction false} ReportsSent(k: Key, calls: seq<Call>)
    ensures Sent(k, Reports(calls)) == Count(k, calls)
  {
    if calls != [] {
      ReportsSent(k, calls[1..]);
      SentAppend(k, [Report(calls[0])], Reports(calls[1..]));
      assert Init([Report(calls[0])]) == [];
      assert Sent(k, Init([Report(calls[0])])) == 0;
    }
  }

  lemma {:induction false} InsertCount(k: Key, call: Call, sorted: seq<Call>)
    ensures Count(k, InsertCall(call, sorted)) == Count(k, sorted) + One(KeyOf(call) == k)
  {
    if sorted == [] || Before(call, sorted[0]) {
      assert InsertCall(call, sorted)[1..] == sorted;
    } else {
      assert InsertCall(call, sorted)[1..] == InsertCall(call, sorted[1..]);
      InsertCount(k, call, sorted[1..]);
    }
  }

  lemma {:induction false} CountSnoc(k: Key, calls: seq<Call>, call: Call)
    ensures Count(k, calls + [call]) == Count(k, calls) + One(KeyOf(call) == k)
  {
    if calls == [] {
      assert [] + [call] == [call] && [call][1..] == [];
    } else {
      assert (calls + [call])[1..] == calls[1..] + [call];
      CountSnoc(k, calls[1..], call);
    }
  }

  lemma {:induction false} SortedCount(k: Key, calls: seq<Call>)
    ensures Count(k, SortCalls(calls)) == Count(k, calls)
  {
    if calls != [] {
      SortedCount(k, Init(calls));
      InsertCount(k, Last(calls), SortCalls(Init(calls)));
      CountSnoc(k, Init(calls), Last(calls));
      assert calls == Init(calls) + [Last(calls)];
    }
  }

  /** Every call found so far has an id and a name. */
  predicate AllNamed(found: seq<(int, ToolDelta)>) {
    forall i :: 0 <= i < |found| ==> found[i].1.id != "" && found[i].1.name != ""
  }

  /** The tool deltas one line brings in. */
  function LineDeltas(line: string): seq<(int, ToolDelta)> {
    var trimmed := Trim(line);
    if StartsWith(trimmed, "data: ") then FoundIn(DataLine(trimmed[6..])) else []
  }

  function OpenedBy(k: Key, c: Core, lines: seq<string>): nat
    decreases |lines|
  {
    if lines == [] then 0
    else OpenedAll(k, c, LineDeltas(lines[0])) + OpenedBy(k, Step(c, lines[0]), lines[1..])
  }

  function ReplacedBy(k: Key, c: Core, lines: seq<string>): nat
    decreases |lines|
  {
    if lines == [] then 0
    else ReplacedAll(k, c, LineDeltas(lines[0])) + ReplacedBy(k, Step(c, lines[0]), lines[1..])
  }

  lemma {:induction false} NoToolsNoDeltas(choices: seq<Choice>)
    requires !CarriesTools(choices)
    ensures Deltas(choices) == []
  {
    if choices != [] {
      assert !choices[0].toolCalls.Some?;
      forall i | 0 <= i < |choices[1..]| ensures !choices[1..][i].toolCalls.Some? {
        assert choices[1..][i] == choices[i + 1];
      }
      NoToolsNoDeltas(choices[1..]);
    }
  }

  /** The account of one key and id so far: calls sent and calls still tracked. */
  function Account(k: Key, c: Core): nat {
    Sent(k, Found(c.emitted)) + Count(k, c.calls)
  }

  /** The invariant, and nothing nameless has been sent. */
  predicate Sound(c: Core) {
    Invariant(c) && AllNamed(Found(c.emitted))
  }

  lemma FlushBalances(k: Key, c: Core)
    requires Sound(c)
    ensures Sound(Flush(c)) && Flush(c).calls == [] && Account(k, Flush(c)) == Account(k, c)
  {
    var sorted := SortCalls(c.calls);
    FlushSends(c);
    SentAppend(k, Found(c.emitted), Reports(sorted));
    ReportsSent(k, sorted);
    SortedCount(k, c.calls);
    SortedComplete(c.calls);
    ReportsNamed(sorted);
  }

  lemma SortedComplete(calls: seq<Call>)
    requires AllComplete(calls)
    ensures AllComplete(SortCalls(calls))
  {
    SortedMember(calls);
    forall i | 0 <= i < |SortCalls(calls)|
      ensures Complete(SortCalls(calls)[i])
    {
      assert SortCalls(calls)[i] in multiset(SortCalls(calls));
      assert SortCalls(calls)[i] in calls;
    }
  }

  lemma {:induction false} ReportsNamed(calls: seq<Call>)
    requires AllComplete(calls)
    ensures AllNamed(Reports(calls))
  {
    if calls != [] {
      ReportsNamed(calls[1..]);
    }
  }

  /** Passing on something without tool calls leaves the account alone. */
  lemma EmitBalances(k: Key, c: Core, out: Out)
    requires Sound(c) && FoundIn(out) == []
    ensures Sound(Emit(c, out)) && Account(k, Emit(c, out)) == Account(k, c)
  {
    FoundSnoc(c.emitted, out);
    assert Found(c.emitted) + [] == Found(c.emitted);
  }

  lemma ProcessBalances(k: Key, c: Core, data: string)
    requires Sound(c)
    ensures Sound(Process(c, data))
    ensures var deltas := FoundIn(DataLine(data));
      Account(k, Process(c, data)) + ReplacedAll(k, c, deltas) == Account(k, c) + OpenedAll(k, c, deltas)
  {
    PayloadBalances(k, c, data, PayloadOf(data));
  }

  /** `processDataLine` on a data line known to carry this payload. */
  lemma PayloadBalances(k: Key, c: Core, data: string, payload: Payload)
    requires Sound(c) && PayloadOf(data) == payload
    ensures Sound(Process(c, data))
    ensures var deltas := FoundIn(DataLine(data));
      Account(k, Process(c, data)) + ReplacedAll(k, c, deltas) == Account(k, c) + OpenedAll(k, c, deltas)
  {
    match payload
    case Done =>
      FlushBalances(k, c);
      EmitBalances(k, Flush(c), DataLine(data));
    case Opaque => EmitBalances(k, c, DataLine(data));
    case Choices(choices) => ChoicesBalance(k, c, data, choices);
  }

  lemma ChoicesBalance(k: Key, c: Core, data: string, choices: seq<Choice>)
    requires Sound(c) && PayloadOf(data) == Choices(choices)
    ensures Sound(Process(c, data))
    ensures Account(k, Process(c, data)) + ReplacedAll(k, c, Deltas(choices)) == Account(k, c) + OpenedAll(k, c, Deltas(choices))
  {
    hide ApplyAll, Flush, Found, Deltas, CarriesTools;
    if CarriesTools(choices) {
      ApplyAllBalances(k, c, Deltas(choices));
    } else {
      NoToolsNoDeltas(choices);
      FlushBalances(k, c);
      EmitBalances(k, if HasFinish(choices) && c.buffering then Flush(c) else c, DataLine(data));
    }
  }

  lemma StepBalances(k: Key, c: Core, line: string)
    requires Sound(c)
    ensures Sound(Step(c, line))
    ensures var deltas := LineDeltas(line);
      Account(k, Step(c, line)) + ReplacedAll(k, c, deltas) == Account(k, c) + OpenedAll(k, c, deltas)
  {
    var trimmed := Trim(line);
    if StartsWith(trimmed, "data: ") {
      ProcessBalances(k, c, trimmed[6..]);
    } else if trimmed != "" {
      EmitBalances(k, c, RawLine(trimmed));
    }
  }

  lemma {:induction false} LinesBalance(k: Key, c: Core, lines: seq<string>)
    requires Sound(c)
    ensures var c' := LineFeed.Lines(Step, c, lines);
      Sound(c') && Account(k, c') + ReplacedBy(k, c, lines) == Account(k, c) + OpenedBy(k, c, lines)
    decreases |lines|
  {
    if lines != [] {
      StepBalances(k, c, lines[0]);
      LinesBalance(k, Step(c, lines[0]), lines[1..]);
    }
  }

  /**
   * Over a whole stream, cut anywhere: every call a reader finds in the output was opened, every opened call is
   * found unless another id replaced it under its key before a flush, each has an id and a name, and none is left.
   */
  lemma CallsConserved(store: Store, chunks: seq<string>, k: Key)
    ensures var c, lines := Run(store, chunks), Split(Flatten(chunks));
      && Sent(k, Found(c.emitted)) + ReplacedBy(k, Start(store), lines) == OpenedBy(k, Start(store), lines)
      && AllNamed(Found(c.emitted))
      && c.calls == [] && !c.buffering
  {
    var start, lines := Start(store), Split(Flatten(chunks));
    LineFeed.CuttingIsIrrelevant(Step, LineFeed.Feed(start, ""), chunks);
    assert "" + Flatten(chunks) == Flatten(chunks);
    LinesBalance(k, start, Init(lines));
    LastLine(k, start, lines);
    FinishBalances(k, LineFeed.Lines(Step, start, Init(lines)), Last(lines));
  }

  lemma {:induction false} LastLine(k: Key, c: Core, lines: seq<string>)
    requires lines != []
    ensures var c' := LineFeed.Lines(Step, c, Init(lines));
      && OpenedBy(k, c, lines) == OpenedBy(k, c, Init(lines)) + OpenedAll(k, c', LineDeltas(Last(lines)))
      && ReplacedBy(k, c, lines) == ReplacedBy(k, c, Init(lines)) + ReplacedAll(k, c', LineDeltas(Last(lines)))
    decreases |lines|
  {
    hide OpenedAll, ReplacedAll, LineDeltas, Step;
    if |lines| > 1 {
      assert Init(lines)[1..] == Init(lines[1..]);
      LastLine(k, Step(c, lines[0]), lines[1..]);
    } else {
      var line := lines[0];
      assert Init(lines) == [] && lines[1..] == [];
      assert OpenedBy(k, Step(c, line), []) == 0 && ReplacedBy(k, Step(c, line), []) == 0;
    }
  }

  /** The end of the stream: the unterminated line counts if it is a data line, then everything is flushed. */
  lemma FinishBalances(k: Key, c: Core, line: string)
    requires Sound(c)
    ensures var c', deltas := Finish(LineFeed.Feed(c, line)), LineDeltas(line);
      && Sent(k, Found(c'.emitted)) + ReplacedAll(k, c, deltas) == Account(k, c) + OpenedAll(k, c, deltas)
      && Sound(c') && c'.calls == []
  {
    var trimmed := Trim(line);
    if StartsWith(trimmed, "data: ") {
      ProcessBalances(k, c, trimmed[6..]);
      FlushBalances(k, Process(c, trimmed[6..]));
    } else {
      FlushBalances(k, c);
    }
  }

  // ----- everything that carries no tool call -----

  /** A data event in which some choice carries tool calls. */
  predicate ToolLine(out: Out) {
    out.DataLine? && PayloadOf(out.data).Choices? && CarriesTools(PayloadOf(out.data).choices)
  }

  /** What carries no tool calls, in order. */
  function Untouched(outs: seq<Out>): seq<Out> {
    if outs == [] then [] else Untouched(Init(outs)) + if ToolLine(Last(outs)) then [] else [Last(outs)]
  }

  lemma UntouchedSnoc(outs: seq<Out>, out: Out)
    ensures Untouched(outs + [out]) == Untouched(outs) + if ToolLine(out) then [] else [out]
  {
    assert Init(outs + [out]) == outs;
  }

  lemma {:induction false} UntouchedAppend(a: seq<Out>, b: seq<Out>)
    ensures Untouched(a + b) == Untouched(a) + Untouched(b)
  {
    if b == [] {
      assert a + b == a;
    } else {
      assert Init(a + b) == a + Init(b) && Last(a + b) == Last(b);
      UntouchedAppend(a, Init(b));
    }
  }

  lemma {:induction false} FlushCallsUntouched(c: Core, calls: seq<Call>)
    ensures Untouched(FlushCalls(c, calls).emitted) == Untouched(c.emitted)
    decreases |calls|
  {
    if calls != [] {
      var out := DataLine(Print(Consolidated(calls[0])));
      ConsolidatedIsToolLine(calls[0]);
      UntouchedSnoc(c.emitted, out);
      FlushCallsUntouched(FlushCall(c, calls[0]), calls[1..]);
    }
  }

  lemma ConsolidatedIsToolLine(call: Call)
    ensures ToolLine(DataLine(Print(Consolidated(call))))
  {
    ConsolidatedReads(call);
    assert [Choice(Some(call.choice), Some([Report(call).1]), "")][0].toolCalls.Some?;
  }

  lemma {:induction false} ApplyAllEmits(c: Core, deltas: seq<(int, ToolDelta)>)
    ensures ApplyAll(c, deltas).emitted == c.emitted
    decreases |deltas|
  {
    if deltas != [] {
      ApplyAllEmits(Apply(c, deltas[0].0, deltas[0].1), deltas[1..]);
    }
  }

  lemma ProcessUntouched(c: Core, data: string, payload: Payload)
    requires payload == PayloadOf(data)
    ensures Untouched(Process(c, data).emitted) == Untouched(c.emitted) + Untouched([DataLine(data)])
  {
    var out := DataLine(data);
    UntouchedSnoc([], out);
    assert [] + [out] == [out];
    FlushCallsUntouched(c, SortCalls(c.calls));
    UntouchedSnoc(c.emitted, out);
    UntouchedSnoc(Flush(c).emitted, out);
    if payload.Choices? && CarriesTools(payload.choices) {
      ApplyAllEmits(c, Deltas(payload.choices));
    }
  }

  lemma StepUntouched(c: Core, line: string)
    ensures Untouched(Step(c, line).emitted) == Untouched(c.emitted) + Untouched(LineOut(line))
  {
    var trimmed := Trim(line);
    if StartsWith(trimmed, "data: ") {
      ProcessUntouched(c, trimmed[6..], PayloadOf(trimmed[6..]));
    } else if trimmed != "" {
      UntouchedSnoc(c.emitted, RawLine(trimmed));
      UntouchedSnoc([], RawLine(trimmed));
      assert [] + [RawLine(trimmed)] == [RawLine(trimmed)];
    }
  }

  lemma {:induction false} LinesUntouched(c: Core, lines: seq<string>)
    ensures Untouched(LineFeed.Lines(Step, c, lines).emitted) == Untouched(c.emitted) + Untouched(LineOuts(lines))
    decreases |lines|
  {
    if lines != [] {
      var head, tail := Untouched(LineOut(lines[0])), Untouched(LineOuts(lines[1..]));
      StepUntouched(c, lines[0]);
      LinesUntouched(Step(c, lines[0]), lines[1..]);
      UntouchedAppend(LineOut(lines[0]), LineOuts(lines[1..]));
      Regroup(Untouched(c.emitted), head, tail);
    } else {
      assert Untouched(c.emitted) + [] == Untouched(c.emitted);
    }
  }

  lemma Regroup<T>(a: seq<T>, b: seq<T>, c: seq<T>)
    ensures a + b + c == a + (b + c)
  {
  }

  lemma FinishUntouched(c: Core, line: string)
    ensures Untouched(Finish(LineFeed.Feed(c, line)).emitted) == Untouched(c.emitted) + Untouched(LastOut(line))
  {
    var trimmed := Trim(line);
    if StartsWith(trimmed, "data: ") {
      var c1 := Process(c, trimmed[6..]);
      ProcessUntouched(c, trimmed[6..], PayloadOf(trimmed[6..]));
      FlushCallsUntouched(c1, SortCalls(c1.calls));
    } else {
      FlushCallsUntouched(c, SortCalls(c.calls));
    }
  }

  /**
   * Every line that carries no tool call comes out trimmed and in order, however the stream is cut; blank lines and an
   * unterminated last line that is no data line do not.
   */
  lemma OthersPassInOrder(store: Store, chunks: seq<string>)
    ensures var lines := Split(Flatten(chunks));
      Untouched(Run(store, chunks).emitted) == Untouched(LineOuts(Init(lines)) + LastOut(Last(lines)))
  {
    var lines := Split(Flatten(chunks));
    LineFeed.CuttingIsIrrelevant(Step, LineFeed.Feed(Start(store), ""), chunks);
    assert "" + Flatten(chunks) == Flatten(chunks);
    LinesUntouched(Start(store), Init(lines));
    UntouchedAppend(LineOuts(Init(lines)), LastOut(Last(lines)));
    FinishUntouched(LineFeed.Lines(Step, Start(store), Init(lines)), Last(lines));
    assert Untouched([]) + Untouched(LineOuts(Init(lines))) == Untouched(LineOuts(Init(lines)));
  }
}
