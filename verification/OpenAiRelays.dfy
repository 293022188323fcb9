/** The shapes in which relays send tool calls, and that they all come to the same consolidated calls. */
module OpenAiRelays {
  import opened Options
  import opened Text
  import opened Json
  import opened ToolMetadata
  import opened DataEvents
  import opened OpenAiStream
  import opened OpenAiConservation

  // ----- a stream as the calls it is about -----

  /** Open a call with its first piece of arguments, or add a piece to an open call. */
  datatype Op =
    | Begin(choice: int, tool: int, id: string, name: string, kind: string, args: string)
    | More(choice: int, tool: int, args: string)

  /** The op in the standard shape: the id once, the index on every delta. */
  function Standard(op: Op): (int, ToolDelta) {
    match op
    case Begin(choice, tool, id, name, kind, args) => (choice, ToolDelta(Some(tool), id, kind, name, args))
    case More(choice, tool, args) => (choice, ToolDelta(Some(tool), "", "", "", args))
  }

  function StandardAll(ops: seq<Op>): seq<(int, ToolDelta)> {
    if ops == [] then [] else [Standard(ops[0])] + StandardAll(ops[1..])
  }

  /** Calls open once, and pieces are for calls that are open. */
  predicate Possible(c: Core, op: Op) {
    match op
    case Begin(choice, tool, id, _, _, _) => id != "" && Find(c.calls, choice, tool) == None
    case More(choice, tool, _) => Find(c.calls, choice, tool).Some?
  }

  /** The index is given, or dropped where the call is the one its choice opened last. */
  predicate IndexShown(c: Core, choice: int, tool: int, d: ToolDelta) {
    d.index == Some(tool) || (d.index == None && choice in c.lastOpened && c.lastOpened[choice] == tool)
  }

  /** The id is left out, or repeated; a repeated name does not rename a call that has none. */
  predicate IdShown(call: Call, d: ToolDelta) {
    d.id == "" || (d.id == call.id && (d.name == "" || call.name != "unknown"))
  }

  /** `delta` is one of the shapes in which a relay may send `op`. */
  predicate Shows(c: Core, op: Op, delta: (int, ToolDelta)) {
    match op
    case Begin(_, _, _, _, _, _) => delta == Standard(op)
    case More(choice, tool, args) =>
      && delta.0 == choice && delta.1.args == args
      && IndexShown(c, choice, tool, delta.1)
      && Find(c.calls, choice, tool).Some? && IdShown(Find(c.calls, choice, tool).value, delta.1)
  }

  predicate ShowsAll(c: Core, ops: seq<Op>, deltas: seq<(int, ToolDelta)>)
    decreases |ops|
  {
    |ops| == |deltas|
    && (ops != [] ==>
          Possible(c, ops[0]) && Shows(c, ops[0], deltas[0])
          && ShowsAll(Apply(c, Standard(ops[0]).0, Standard(ops[0]).1), ops[1..], deltas[1..]))
  }

  lemma ShowsSame(c: Core, op: Op, delta: (int, ToolDelta))
    requires Possible(c, op) && Shows(c, op, delta)
    ensures Apply(c, delta.0, delta.1) == Apply(c, Standard(op).0, Standard(op).1)
  {
  }

  /** Repeating ids and dropping indices makes no difference to the state the stream reaches. */
  lemma {:induction false} ShapesAgree(c: Core, ops: seq<Op>, deltas: seq<(int, ToolDelta)>)
    requires ShowsAll(c, ops, deltas)
    ensures ApplyAll(c, deltas) == ApplyAll(c, StandardAll(ops))
    decreases |ops|
  {
    if ops != [] {
      ShowsSame(c, ops[0], deltas[0]);
      ShapesAgree(Apply(c, Standard(ops[0]).0, Standard(ops[0]).1), ops[1..], deltas[1..]);
      assert StandardAll(ops)[1..] == StandardAll(ops[1..]);
    }
  }

  // ----- what the calls are, without the stream -----

  /** The call under a key: how it was opened, with all its pieces joined. */
  function Collected(ops: seq<Op>, choice: int, tool: int): Option<Call> {
    if ops == [] then None
    else
      var before := Collected(Init(ops), choice, tool);
      match Last(ops)
      case Begin(ch, t, id, name, kind, args) =>
        if ch == choice && t == tool then Some(Open(choice, tool, Standard(Last(ops)).1)) else before
      case More(ch, t, args) =>
        if ch == choice && t == tool && before.Some? then Some(before.value.(args := before.value.args + args)) else before
  }

  lemma OpFinds(c: Core, op: Op, choice: int, tool: int)
    requires Invariant(c) && Possible(c, op)
    ensures Invariant(Apply(c, Standard(op).0, Standard(op).1))
    ensures Find(Apply(c, Standard(op).0, Standard(op).1).calls, choice, tool) ==
      if op.choice != choice || op.tool != tool then Find(c.calls, choice, tool)
      else if op.Begin? then Some(Open(choice, tool, Standard(op).1))
      else Some(Find(c.calls, choice, tool).value.(args := Find(c.calls, choice, tool).value.args + op.args))
  {
    var (ch, d) := Standard(op);
    ApplyBalances(Key(0, 0, ""), c, ch, d);
    if op.Begin? {
      SetThenFind(c.calls, Open(op.choice, op.tool, d));
    } else {
      var call := Find(c.calls, op.choice, op.tool).value;
      SetThenFind(c.calls, call.(args := call.args + op.args));
    }
  }

  lemma {:induction false} ApplyAllSnoc(c: Core, deltas: seq<(int, ToolDelta)>, delta: (int, ToolDelta))
    ensures ApplyAll(c, deltas + [delta]) == Apply(ApplyAll(c, deltas), delta.0, delta.1)
    decreases |deltas|
  {
    if deltas == [] {
      assert deltas + [delta] == [delta] && [delta][1..] == [];
      assert ApplyAll(Apply(c, delta.0, delta.1), []) == Apply(c, delta.0, delta.1);
    } else {
      assert (deltas + [delta])[1..] == deltas[1..] + [delta];
      ApplyAllSnoc(Apply(c, deltas[0].0, deltas[0].1), deltas[1..], delta);
    }
  }

  lemma {:induction false} StandardSnoc(ops: seq<Op>)
    requires ops != []
    ensures StandardAll(ops) == StandardAll(Init(ops)) + [Standard(Last(ops))]
  {
    if |ops| == 1 {
      assert Init(ops) == [] && ops[1..] == [];
      assert StandardAll(ops[1..]) == [];
    } else {
      StandardSnoc(ops[1..]);
      assert Init(ops)[1..] == Init(ops[1..]);
    }
  }

  /** Every op is possible where it comes. */
  predicate AllPossible(c: Core, ops: seq<Op>) {
    ops != [] ==> AllPossible(c, Init(ops)) && Possible(ApplyAll(c, StandardAll(Init(ops))), Last(ops))
  }

  lemma {:induction false} CollectsAll(store: Store, ops: seq<Op>, choice: int, tool: int)
    requires AllPossible(Start(store), ops)
    ensures var c := ApplyAll(Start(store), StandardAll(ops));
      Invariant(c) && Find(c.calls, choice, tool) == Collected(ops, choice, tool)
  {
    if ops != [] {
      CollectsAll(store, Init(ops), choice, tool);
      StandardSnoc(ops);
      ApplyAllSnoc(Start(store), StandardAll(Init(ops)), Standard(Last(ops)));
      OpFinds(ApplyAll(Start(store), StandardAll(Init(ops))), Last(ops), choice, tool);
    }
  }

  lemma {:induction false} ShownIsPossible(c: Core, ops: seq<Op>, deltas: seq<(int, ToolDelta)>)
    requires ShowsAll(c, ops, deltas)
    ensures AllPossible(c, ops)
  {
    if ops != [] {
      ShownPrefix(c, ops, deltas);
      ShownIsPossible(c, Init(ops), Init(deltas));
    }
  }

  lemma {:induction false} ShownPrefix(c: Core, ops: seq<Op>, deltas: seq<(int, ToolDelta)>)
    requires ops != [] && ShowsAll(c, ops, deltas)
    ensures ShowsAll(c, Init(ops), Init(deltas)) && Possible(ApplyAll(c, StandardAll(Init(ops))), Last(ops))
    decreases |ops|
  {
    if |ops| > 1 {
      var (ch, d) := Standard(ops[0]);
      ShownPrefix(Apply(c, ch, d), ops[1..], deltas[1..]);
      assert Init(ops)[1..] == Init(ops[1..]) && Init(deltas)[1..] == Init(deltas[1..]);
      assert StandardAll(Init(ops)) == [(ch, d)] + StandardAll(Init(ops)[1..]);
      assert StandardAll(Init(ops))[1..] == StandardAll(Init(ops[1..]));
    } else {
      assert Init(ops) == [] && Init(deltas) == [];
      assert ApplyAll(c, StandardAll(Init(ops))) == c;
    }
  }

  /** In any mix of shapes, each call ends up as it was opened, with all its pieces joined in order. */
  lemma ShapesCollect(store: Store, ops: seq<Op>, deltas: seq<(int, ToolDelta)>, choice: int, tool: int)
    requires ShowsAll(Start(store), ops, deltas)
    ensures var c := ApplyAll(Start(store), deltas);
      Invariant(c) && Find(c.calls, choice, tool) == Collected(ops, choice, tool)
  {
    ShapesAgree(Start(store), ops, deltas);
    ShownIsPossible(Start(store), ops, deltas);
    CollectsAll(store, ops, choice, tool);
  }

  // ----- arguments sent as complete objects at shifted indices -----

  /** The choice's calls are exactly those at indices 0..n-1. */
  ghost predicate Numbered(calls: seq<Call>, choice: int, n: nat) {
    && OnePerKey(calls)
    && (forall i :: 0 <= i < |calls| ==> calls[i].choice == choice && 0 <= calls[i].tool < n)
    && (forall k :: 0 <= k < n ==> Find(calls, choice, k).Some?)
  }

  lemma {:induction false} AtLeastIndex(sorted: seq<Call>, choice: int, i: nat)
    requires StrictlySorted(sorted) && i < |sorted|
    requires forall k :: 0 <= k < |sorted| ==> sorted[k].choice == choice && 0 <= sorted[k].tool
    ensures sorted[i].tool >= i
  {
    if i > 0 {
      AtLeastIndex(sorted, choice, i - 1);
      assert Before(sorted[i - 1], sorted[i]);
    }
  }

  /** A strictly sorted list of the calls 0..n-1 has call k at position k. */
  lemma {:induction false} InPlace(sorted: seq<Call>, calls: seq<Call>, choice: int, n: nat, k: nat)
    requires StrictlySorted(sorted) && multiset(sorted) == multiset(calls) && Numbered(calls, choice, n) && k < n
    ensures k < |sorted| && Find(calls, choice, k) == Some(sorted[k])
  {
    forall i | 0 <= i < |sorted|
      ensures sorted[i].choice == choice && 0 <= sorted[i].tool < n && sorted[i] in calls
    {
      assert sorted[i] in multiset(sorted);
    }
    var call := Find(calls, choice, k).value;
    assert call in multiset(sorted);
    var j :| 0 <= j < |sorted| && sorted[j] == call;
    AtLeastIndex(sorted, choice, j);
    if j < k {
      InPlace(sorted, calls, choice, n, j);
    }
  }

  lemma SortedInPlace(calls: seq<Call>, choice: int, n: nat)
    requires Numbered(calls, choice, n)
    ensures |SortCalls(calls)| == n
    ensures forall k :: 0 <= k < n ==> Find(calls, choice, k) == Some(SortCalls(calls)[k])
  {
    var sorted := SortCalls(calls);
    SortSorts(calls);
    forall k | 0 <= k < n
      ensures k < |sorted| && Find(calls, choice, k) == Some(sorted[k])
    {
      InPlace(sorted, calls, choice, n, k);
    }
    if n > 0 {
      InPlace(sorted, calls, choice, n, n - 1);
    }
    AtLeastNumbered(sorted, calls, choice, n);
  }

  lemma AtLeastNumbered(sorted: seq<Call>, calls: seq<Call>, choice: int, n: nat)
    requires StrictlySorted(sorted) && multiset(sorted) == multiset(calls) && Numbered(calls, choice, n)
    ensures |sorted| <= n
  {
    forall i | 0 <= i < |sorted|
      ensures sorted[i].choice == choice && 0 <= sorted[i].tool < n
    {
      assert sorted[i] in multiset(sorted);
      assert sorted[i] in calls;
    }
    if |sorted| > n {
      AtLeastIndex(sorted, choice, n);
    }
  }

  /** A choice whose calls are all there is has nothing filtered out. */
  lemma {:induction false} InChoiceAll(calls: seq<Call>, choice: int)
    requires forall i :: 0 <= i < |calls| ==> calls[i].choice == choice
    ensures InChoice(calls, choice) == calls
  {
    if calls != [] {
      InChoiceAll(calls[1..], choice);
    }
  }

  /** Call `k`'s complete object at the shifted index `n + k`. */
  function Shift(choice: int, n: nat, k: nat, whole: string): (int, ToolDelta) {
    (choice, ToolDelta(Some(n + k), "", "", "", whole))
  }

  function Shifts(choice: int, objects: seq<string>, from: nat): seq<(int, ToolDelta)>
    requires from <= |objects|
    decreases |objects| - from
  {
    if from == |objects| then [] else [Shift(choice, |objects|, from, objects[from])] + Shifts(choice, objects, from + 1)
  }

  /** The choice's calls are exactly these, nothing else is tracked and nothing has been sent. */
  ghost predicate Holds(c: Core, choice: int, calls: seq<Call>) {
    && Invariant(c) && Numbered(c.calls, choice, |calls|) && c.emitted == []
    && forall k :: 0 <= k < |calls| ==> Find(c.calls, choice, k) == Some(calls[k])
  }

  predicate LastOpenedIs(c: Core, choice: int, tool: int) {
    choice in c.lastOpened && c.lastOpened[choice] == tool
  }

  function WithShift(call: Call, whole: string): Call {
    call.(shifted := call.shifted + [whole])
  }

  lemma TargetIs(c: Core, choice: int, calls: seq<Call>, k: nat, whole: string)
    requires Holds(c, choice, calls) && k < |calls| && whole != "" && LastOpenedIs(c, choice, |calls| - 1)
    ensures Find(c.calls, choice, |calls| + k) == None
    ensures ShiftTarget(c, choice, Shift(choice, |calls|, k, whole).1) == Some(calls[k])
  {
    hide OnePerKey, AllComplete, SortCalls, InChoice;
    FindNone(c.calls, choice, |calls| + k);
    InChoiceAll(c.calls, choice);
    SortedInPlace(c.calls, choice, |calls|);
  }

  /** A shifted object lands on the call it belongs to and on no other. */
  lemma ShiftLands(c: Core, choice: int, calls: seq<Call>, k: nat, whole: string)
    requires Holds(c, choice, calls) && k < |calls| && whole != "" && LastOpenedIs(c, choice, |calls| - 1)
    ensures var (ch, d) := Shift(choice, |calls|, k, whole); var c' := Apply(c, ch, d);
      Holds(c', choice, calls[k := WithShift(calls[k], whole)]) && LastOpenedIs(c', choice, |calls| - 1)
  {
    var (ch, d) := Shift(choice, |calls|, k, whole);
    TargetIs(c, choice, calls, k, whole);
    ApplyBalances(Key(0, 0, ""), c, choice, d);
    assert Apply(c, ch, d) == c.(calls := Set(c.calls, WithShift(calls[k], whole)));
    SetHolds(c, choice, calls, k, WithShift(calls[k], whole));
  }

  lemma SetHolds(c: Core, choice: int, calls: seq<Call>, k: nat, call: Call)
    requires Holds(c, choice, calls) && k < |calls| && SameKey(call, calls[k])
    requires Invariant(c.(calls := Set(c.calls, call)))
    ensures Holds(c.(calls := Set(c.calls, call)), choice, calls[k := call])
  {
    SetThenFind(c.calls, call);
  }

  /** The calls once every object from `from` on has landed. */
  function AllShifted(calls: seq<Call>, objects: seq<string>, from: nat): (r: seq<Call>)
    requires |calls| == |objects| && from <= |objects|
    ensures |r| == |calls|
    ensures forall k :: 0 <= k < |calls| ==> r[k] == if k < from then calls[k] else WithShift(calls[k], objects[k])
    decreases |objects| - from
  {
    if from == |objects| then calls
    else AllShifted(calls[from := WithShift(calls[from], objects[from])], objects, from + 1)
  }

  lemma {:induction false} ShiftsLand(c: Core, choice: int, calls: seq<Call>, objects: seq<string>, from: nat)
    requires |calls| == |objects| && from <= |objects|
    requires Holds(c, choice, calls) && LastOpenedIs(c, choice, |calls| - 1)
    requires forall k :: 0 <= k < |objects| ==> objects[k] != ""
    ensures Holds(ApplyAll(c, Shifts(choice, objects, from)), choice, AllShifted(calls, objects, from))
    decreases |objects| - from
  {
    if from < |objects| {
      ShiftLands(c, choice, calls, from, objects[from]);
      var (ch, d) := Shift(choice, |objects|, from, objects[from]);
      ShiftsLand(Apply(c, ch, d), choice, calls[from := WithShift(calls[from], objects[from])], objects, from + 1);
      assert Shifts(choice, objects, from)[1..] == Shifts(choice, objects, from + 1);
    }
  }

  // ----- the four shapes meet -----

  /** What a relay says about a call when opening it. */
  datatype Header = Header(id: string, name: string, kind: string)

  function Begins(choice: int, headers: seq<Header>, texts: seq<string>): (ops: seq<Op>)
    requires |headers| == |texts|
    ensures |ops| == |headers|
  {
    if headers == [] then []
    else
      var h := Last(headers);
      Begins(choice, Init(headers), Init(texts)) + [Begin(choice, |headers| - 1, h.id, h.name, h.kind, Last(texts))]
  }

  function CallOf(choice: int, k: nat, h: Header, args: string, shifted: seq<string>): Call {
    Open(choice, k, ToolDelta(Some(k), h.id, h.kind, h.name, args)).(shifted := shifted)
  }

  /** The calls of a numbered list, with what was shifted onto each. */
  function CallsOf(choice: int, headers: seq<Header>, texts: seq<string>): (r: seq<Call>)
    requires |headers| == |texts|
    ensures |r| == |headers|
    ensures forall k :: 0 <= k < |headers| ==> r[k] == CallOf(choice, k, headers[k], texts[k], [])
  {
    seq(|headers|, k requires 0 <= k < |headers| => CallOf(choice, k, headers[k], texts[k], []))
  }

  lemma BeginHolds(c: Core, choice: int, calls: seq<Call>, d: ToolDelta)
    requires Holds(c, choice, calls) && d.index == Some(|calls|) && d.id != ""
    ensures Holds(Apply(c, choice, d), choice, calls + [Open(choice, |calls|, d)])
    ensures LastOpenedIs(Apply(c, choice, d), choice, |calls|)
  {
    FindNone(c.calls, choice, |calls|);
    SetThenFind(c.calls, Open(choice, |calls|, d));
    ApplyBalances(Key(0, 0, ""), c, choice, d);
  }

  /** Opening n calls one after the other leaves exactly those calls, the last of them opened last. */
  lemma {:induction false} BeginsNumber(store: Store, choice: int, headers: seq<Header>, texts: seq<string>)
    requires |headers| == |texts| && forall k :: 0 <= k < |headers| ==> headers[k].id != ""
    ensures var c := ApplyAll(Start(store), StandardAll(Begins(choice, headers, texts)));
      && Holds(c, choice, CallsOf(choice, headers, texts))
      && (headers != [] ==> LastOpenedIs(c, choice, |headers| - 1))
  {
    var ops := Begins(choice, headers, texts);
    if headers != [] {
      BeginsNumber(store, choice, Init(headers), Init(texts));
      var before := StandardAll(Init(ops));
      var (ch, d) := Standard(Last(ops));
      BeginsSnoc(choice, headers, texts);
      StandardSnoc(ops);
      ApplyAllSnoc(Start(store), before, (ch, d));
      BeginHolds(ApplyAll(Start(store), before), choice, CallsOf(choice, Init(headers), Init(texts)), d);
    }
  }

  lemma BeginsSnoc(choice: int, headers: seq<Header>, texts: seq<string>)
    requires |headers| == |texts| && headers != []
    ensures var h, n := Last(headers), |headers| - 1;
      var op := Begin(choice, n, h.id, h.name, h.kind, Last(texts));
      && Begins(choice, headers, texts) == Begins(choice, Init(headers), Init(texts)) + [op]
      && Init(Begins(choice, headers, texts)) == Begins(choice, Init(headers), Init(texts))
      && Last(Begins(choice, headers, texts)) == op
      && CallsOf(choice, headers, texts)
         == CallsOf(choice, Init(headers), Init(texts)) + [Open(choice, n, Standard(op).1)]
  {
  }

  /** The arguments of a report, as the map they stand for; `None` where they are not an whole. */
  function ArgumentMap(report: (int, ToolDelta)): Option<map<string, Json>> {
    match ObjectIn(report.1.args)
    case Some(fields) => Some(AsMap(fields))
    case None => None
  }

  /** The same call with the same arguments, as maps. */
  predicate SameCall(a: (int, ToolDelta), b: (int, ToolDelta)) {
    a.0 == b.0 && a.1.(args := "") == b.1.(args := "") && ArgumentMap(a) == ArgumentMap(b)
  }

  predicate SameCalls(a: seq<(int, ToolDelta)>, b: seq<(int, ToolDelta)>) {
    |a| == |b| && forall i :: 0 <= i < |a| ==> SameCall(a[i], b[i])
  }

  lemma {:induction false} ReportsAt(calls: seq<Call>)
    ensures |Reports(calls)| == |calls|
    ensures forall i :: 0 <= i < |calls| ==> Reports(calls)[i] == Report(calls[i])
  {
    if calls != [] {
      ReportsAt(calls[1..]);
    }
  }

  /** The fields a text contributes: none when it is empty or no whole. */
  function FieldsIn(text: string): (r: Fields)
    ensures WellFormed(Obj(r))
  {
    ObjectIn(text).GetOr([])
  }

  /** A map overridden by the objects in some texts, one after the other. */
  function Overridden(m: map<string, Json>, pieces: seq<string>): map<string, Json>
    decreases |pieces|
  {
    if pieces == [] then m else Overridden(m + AsMap(FieldsIn(pieces[0])), pieces[1..])
  }

  /** The map a text and the objects shifted onto it stand for together, less the metadata. */
  function MeantBy(args: string, shifted: seq<string>): map<string, Json> {
    Overridden(AsMap(FieldsIn(args)), shifted) - {INTENT, DISPLAY_NAME}
  }

  /**
   * A call's arguments come out as its own text's map, overridden by the objects shifted onto it, less the metadata;
   * no arguments at all come out as the empty object. A text that does not parse comes out as it is if nothing was
   * shifted onto it.
   */
  lemma OutArgsMap(call: Call)
    ensures PassedRaw(call) ==> Report(call).1.args == call.args && ArgumentMap(Report(call)) == None
    ensures !PassedRaw(call) ==> ArgumentMap(Report(call)) == Some(MeantBy(call.args, call.shifted))
  {
    hide Print, MergeAll, Clean;
    if !PassedRaw(call) {
      MergeAllMap(FieldsIn(call.args), call.shifted);
      CleanMap(Merged(call));
      CleanWellFormed(Merged(call));
      RoundTrip(Obj(Clean(Merged(call))));
    }
  }

  lemma {:induction false} MergeAllMap(fields: Fields, pieces: seq<string>)
    requires WellFormed(Obj(fields))
    ensures WellFormed(Obj(MergeAll(fields, pieces)))
    ensures AsMap(MergeAll(fields, pieces)) == Overridden(AsMap(fields), pieces)
    decreases |pieces|
  {
    hide WellFormed, AsMap, Merge;
    if pieces != [] {
      var piece := FieldsIn(pieces[0]);
      MergedFields(fields, piece);
      MergeAllMap(Merge(fields, piece), pieces[1..]);
    }
  }

  lemma MergedFields(fields: Fields, piece: Fields)
    requires WellFormed(Obj(fields)) && WellFormed(Obj(piece))
    ensures WellFormed(Obj(Merge(fields, piece))) && AsMap(Merge(fields, piece)) == AsMap(fields) + AsMap(piece)
  {
    MergeMap(fields, piece);
    MergeWellFormed(fields, piece);
  }

  lemma {:induction false} ApplyAllAppend(c: Core, a: seq<(int, ToolDelta)>, b: seq<(int, ToolDelta)>)
    ensures ApplyAll(c, a + b) == ApplyAll(ApplyAll(c, a), b)
    decreases |a|
  {
    if a == [] {
      assert a + b == b;
    } else {
      assert (a + b)[1..] == a[1..] + b;
      ApplyAllAppend(Apply(c, a[0].0, a[0].1), a[1..], b);
    }
  }

  lemma ShapesNumbered(store: Store, choice: int, headers: seq<Header>, texts: seq<string>, ops: seq<Op>, deltas: seq<(int, ToolDelta)>)
    requires |headers| == |texts| && ShowsAll(Start(store), ops, deltas)
    requires forall ch, t :: Collected(ops, ch, t) == Listed(choice, headers, texts, ch, t)
    ensures Holds(ApplyAll(Start(store), deltas), choice, CallsOf(choice, headers, texts))
  {
    var c := ApplyAll(Start(store), deltas);
    ApplyAllEmits(Start(store), deltas);
    ShapesCollect(store, ops, deltas, 0, 0);
    forall i | 0 <= i < |c.calls|
      ensures c.calls[i].choice == choice && 0 <= c.calls[i].tool < |headers|
    {
      FindSome(c.calls, c.calls[i]);
      ShapesCollect(store, ops, deltas, c.calls[i].choice, c.calls[i].tool);
    }
    forall k | 0 <= k < |headers|
      ensures Find(c.calls, choice, k) == Some(CallOf(choice, k, headers[k], texts[k], []))
    {
      ShapesCollect(store, ops, deltas, choice, k);
    }
  }

  /** The calls of a numbered list, by key. */
  function Listed(choice: int, headers: seq<Header>, texts: seq<string>, ch: int, t: int): Option<Call>
    requires |headers| == |texts|
  {
    if ch == choice && 0 <= t < |headers| then Some(CallOf(choice, t, headers[t], texts[t], [])) else None
  }

  function Shifted(choice: int, headers: seq<Header>, heads: seq<string>, objects: seq<string>): seq<(int, ToolDelta)>
    requires |headers| == |heads|
  {
    StandardAll(Begins(choice, headers, heads)) + Shifts(choice, objects, 0)
  }

  lemma ShiftedNumbered(store: Store, choice: int, headers: seq<Header>, heads: seq<string>, objects: seq<string>)
    requires |headers| == |heads| == |objects|
    requires forall k :: 0 <= k < |headers| ==> headers[k].id != "" && objects[k] != ""
    ensures Holds(ApplyAll(Start(store), Shifted(choice, headers, heads, objects)), choice,
                  AllShifted(CallsOf(choice, headers, heads), objects, 0))
  {
    var begun := StandardAll(Begins(choice, headers, heads));
    BeginsNumber(store, choice, headers, heads);
    ApplyAllAppend(Start(store), begun, Shifts(choice, objects, 0));
    if headers != [] {
      ShiftsLand(ApplyAll(Start(store), begun), choice, CallsOf(choice, headers, heads), objects, 0);
    }
  }

  /** What a flush of numbered calls sends is their reports in order. */
  lemma FlushNumbered(c: Core, choice: int, calls: seq<Call>)
    requires Holds(c, choice, calls)
    ensures Found(Flush(c).emitted) == Reports(calls)
  {
    hide Flush, SortCalls, Numbered, Invariant, Reports;
    SortedInPlace(c.calls, choice, |calls|);
    FlushSends(c);
    assert SortCalls(c.calls) == calls;
    assert Found(c.emitted) == [];
    assert [] + Reports(calls) == Reports(calls);
  }

  /** A call's text in one piece means what a text and a complete object shifted onto it mean together. */
  predicate Agree(text: string, head: string, whole: string) {
    (text == "" || Parse(text).Some?) && MeantBy(text, []) == MeantBy(head, [whole])
  }

  /**
   * One list of calls, sent in any mix of the standard, id-repeating and index-dropping shapes, or as headers
   * followed by complete argument objects at shifted indices: both are sent on as the same consolidated calls exactly
   * when, call by call, the text of the one means what head and object of the other mean.
   */
  lemma RelaysAgree(store: Store, choice: int, headers: seq<Header>, texts: seq<string>,
                    ops: seq<Op>, deltas: seq<(int, ToolDelta)>, heads: seq<string>, objects: seq<string>)
    requires |headers| == |texts| == |heads| == |objects|
    requires forall k :: 0 <= k < |headers| ==> headers[k].id != "" && objects[k] != ""
    requires ShowsAll(Start(store), ops, deltas)
    requires forall ch, t :: Collected(ops, ch, t) == Listed(choice, headers, texts, ch, t)
    ensures SameCalls(Found(Flush(ApplyAll(Start(store), deltas)).emitted),
                      Found(Flush(ApplyAll(Start(store), Shifted(choice, headers, heads, objects))).emitted))
       <==> forall k :: 0 <= k < |headers| ==> Agree(texts[k], heads[k], objects[k])
  {
    hide Agree, SameCalls, ShowsAll, Flush, ApplyAll, Found, Holds;
    var a, b := CallsOf(choice, headers, texts), AllShifted(CallsOf(choice, headers, heads), objects, 0);
    ShapesNumbered(store, choice, headers, texts, ops, deltas);
    ShiftedNumbered(store, choice, headers, heads, objects);
    FlushNumbered(ApplyAll(Start(store), deltas), choice, a);
    FlushNumbered(ApplyAll(Start(store), Shifted(choice, headers, heads, objects)), choice, b);
    AllSame(choice, headers, texts, heads, objects);
  }

  lemma AllSame(choice: int, headers: seq<Header>, texts: seq<string>, heads: seq<string>, objects: seq<string>)
    requires |headers| == |texts| == |heads| == |objects|
    ensures SameCalls(Reports(CallsOf(choice, headers, texts)), Reports(AllShifted(CallsOf(choice, headers, heads), objects, 0)))
       <==> forall k :: 0 <= k < |headers| ==> Agree(texts[k], heads[k], objects[k])
  {
    hide Agree, SameCall, Reports, Report, CallOf, WithShift;
    var a, b := CallsOf(choice, headers, texts), AllShifted(CallsOf(choice, headers, heads), objects, 0);
    ReportsAt(a);
    ReportsAt(b);
    forall k | 0 <= k < |headers|
      ensures SameCall(Reports(a)[k], Reports(b)[k]) <==> Agree(texts[k], heads[k], objects[k])
    {
      ReportsSame(choice, k, headers[k], texts[k], heads[k], objects[k]);
    }
  }

  lemma ReportsSame(choice: int, k: nat, h: Header, text: string, head: string, whole: string)
    ensures SameCall(Report(CallOf(choice, k, h, text, [])), Report(WithShift(CallOf(choice, k, h, head, []), whole)))
       <==> Agree(text, head, whole)
  {
    hide MeantBy, ArgumentMap, OutArgs;
    var a, b := CallOf(choice, k, h, text, []), WithShift(CallOf(choice, k, h, head, []), whole);
    assert a.args == text && b.args == head && a.shifted == [] && b.shifted == [whole];
    OutArgsMap(a);
    OutArgsMap(b);
    assert Report(a).1.(args := "") == ToolDelta(Some(a.tool), a.id, a.kind, a.name, "");
    assert Report(b).1.(args := "") == ToolDelta(Some(b.tool), b.id, b.kind, b.name, "");
  }
}
