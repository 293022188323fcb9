/** The replayed history of a Responses request: the repair pass, the validator, and how they fit together. */
module ResponsesHistory {
  import opened Options
  import opened Text
  import opened Json
  import opened ToolMetadata
  import ShortHash

  /** One element of `input`; fields of another type than declared count as absent, `rest` is not looked at. */
  datatype Entry =
    | Missing
    | Entry(kind: string, callId: Option<string>, name: Option<string>, arguments: Option<string>, rest: Json)

  datatype Code = MissingCallId | DuplicateCallId | OrphanedOutput | EmptyName

  datatype Problem = Problem(code: Code, index: nat)

  predicate IsCall(e: Entry) {
    e.Entry? && e.kind == "function_call"
  }

  predicate IsOutput(e: Entry) {
    e.Entry? && e.kind == "function_call_output"
  }

  // ----- the repair pass -----

  /** The id synthesized for a call without one at position `i`. */
  function SyntheticId(i: nat, e: Entry): string
    requires IsCall(e)
  {
    "repaired_" + (PrintNat(i) + ("_" + (e.name.GetOr("unknown") + "_" + HashOf(e))))
  }

  function HashOf(e: Entry): string
    requires IsCall(e)
  {
    if e.arguments.Some? then ShortHash.HashText(e.arguments.value) else "0"
  }

  function WithId(i: nat, e: Entry): Entry {
    if IsCall(e) && !Truthy(e.callId) then e.(callId := Some(SyntheticId(i, e))) else e
  }

  /** Every call has an id now. */
  function WithIds(input: seq<Entry>): (r: seq<Entry>)
    ensures |r| == |input| && forall i :: 0 <= i < |r| ==> r[i] == WithId(i, input[i])
  {
    seq(|input|, i requires 0 <= i < |input| => WithId(i, input[i]))
  }

  /** The ids of all calls with one. */
  function CallIds(input: seq<Entry>): set<string> {
    set i | 0 <= i < |input| && IsCall(input[i]) && Truthy(input[i].callId) :: input[i].callId.value
  }

  predicate Keeps(e: Entry, known: set<string>) {
    !IsOutput(e) || (Truthy(e.callId) && e.callId.value in known)
  }

  function Filter(input: seq<Entry>, known: set<string>): (r: seq<Entry>)
    ensures |r| <= |input|
  {
    if input == [] then [] else Filter(Init(input), known) + if Keeps(Last(input), known) then [Last(input)] else []
  }

  /** The input after repair. */
  function Repaired(input: seq<Entry>): seq<Entry> {
    Filter(WithIds(input), CallIds(WithIds(input)))
  }

  function Nameless(input: seq<Entry>): nat {
    if input == [] then 0
    else Nameless(Init(input)) + if IsCall(Last(input)) && !Truthy(Last(input).callId) then 1 else 0
  }

  /** The early exit reads a field of every element up to the first output; it throws on an absent one. */
  predicate Throws(input: seq<Entry>) {
    Nameless(input) == 0 && exists i :: 0 <= i < |input| && input[i].Missing? && forall j :: 0 <= j < i ==> !IsOutput(input[j])
  }

  datatype Outcome = Thrown | Done(synthesizedCallIds: nat, droppedOrphans: nat)

  class Body {
    var input: seq<Entry>

    constructor (input: seq<Entry>)
      ensures this.input == input
    {
      this.input := input;
    }

    method SynthesizeIds() returns (synthesized: nat, knownCallIds: set<string>)
      modifies this
      ensures input == WithIds(old(input)) && synthesized == Nameless(old(input)) && knownCallIds == CallIds(input)
    {
      hide SyntheticId, CallIds, Nameless;
      synthesized, knownCallIds := 0, {};
      ghost var before := input;
      var i := 0;
      assert before[..0] == [];
      NothingFilled();
      while i < |input|
        invariant 0 <= i <= |input| == |before|
        invariant input == WithIds(before[..i]) + before[i..]
        invariant knownCallIds == CallIds(WithIds(before[..i])) && synthesized == Nameless(before[..i])
      {
        var e := input[i];
        FillStep(before, i);
        if IsCall(e) {
          if !Truthy(e.callId) {
            e := e.(callId := Some(SyntheticId(i, e)));
            input := input[i := e];
            synthesized := synthesized + 1;
          }
          knownCallIds := knownCallIds + {e.callId.value};
        }
        i := i + 1;
      }
      assert before[..i] == before && before[i..] == [];
    }

    /** The backward loop that splices orphans out as it goes. */
    method DropOrphans(knownCallIds: set<string>) returns (dropped: nat)
      modifies this
      ensures input == Filter(old(input), knownCallIds) && dropped == |old(input)| - |input|
    {
      dropped := 0;
      ghost var before := input;
      var i := |input|;
      assert before[..i] == before && before[i..] == [];
      while i > 0
        invariant 0 <= i <= |before| && i <= |input|
        invariant input[..i] == before[..i] && dropped == |before| - |input|
        invariant Filter(before[..i], knownCallIds) + input[i..] == Filter(before, knownCallIds)
      {
        i := i - 1;
        DropStep(before, input, i, knownCallIds);
        if !Keeps(input[i], knownCallIds) {
          input := input[..i] + input[i + 1..];
          dropped := dropped + 1;
        }
      }
    }

    /** `repairResponsesHistoryInPlace` */
    method Repair() returns (outcome: Outcome)
      modifies this
      ensures outcome.Thrown? <==> Throws(old(input))
      ensures outcome.Thrown? ==> input == old(input)
      ensures outcome.Done? ==> input == Repaired(old(input))
      ensures outcome.Done? ==>
        outcome.synthesizedCallIds == Nameless(old(input)) && outcome.droppedOrphans == |old(input)| - |input|
    {
      ghost var before := input;
      var synthesized, known := SynthesizeIds();
      if synthesized == 0 {
        NothingSynthesized(before);
        var i := 0;
        while i < |input| && !IsOutput(input[i])
          invariant 0 <= i <= |input| && input == before
          invariant forall j :: 0 <= j < i ==> !IsOutput(input[j]) && !input[j].Missing?
        {
          if input[i].Missing? {
            return Thrown;
          }
          i := i + 1;
        }
        if i == |input| {
          FilterAll(input, known);
          return Done(0, 0);
        }
      }
      var dropped := DropOrphans(known);
      outcome := Done(synthesized, dropped);
    }
  }

  lemma NothingFilled()
    ensures WithIds([]) == [] && CallIds([]) == {} && Nameless([]) == 0
  {
  }

  /** One iteration of the backward loop. */
  lemma DropStep(before: seq<Entry>, input: seq<Entry>, i: nat, known: set<string>)
    requires i < |before| && i < |input| && input[..i + 1] == before[..i + 1]
    ensures var next := if Keeps(input[i], known) then input else input[..i] + input[i + 1..];
      && next[..i] == before[..i]
      && Filter(before[..i + 1], known) + input[i + 1..] == Filter(before[..i], known) + next[i..]
  {
    assert input[i] == input[..i + 1][i] == before[i];
    assert Init(before[..i + 1]) == before[..i] && Last(before[..i + 1]) == before[i];
    assert input[i..] == [input[i]] + input[i + 1..];
    assert (input[..i] + input[i + 1..])[i..] == input[i + 1..];
    assert input[..i] == input[..i + 1][..i] == before[..i];
  }

  /** One iteration of the first pass. */
  lemma FillStep(before: seq<Entry>, i: nat)
    requires i < |before|
    ensures var now, e := WithIds(before[..i]) + before[i..], WithId(i, before[i]);
      && now[i] == before[i] && WithIds(before[..i + 1]) + before[i + 1..] == now[i := e]
      && (before[i] == e ==> now[i := e] == now)
      && CallIds(WithIds(before[..i + 1])) == CallIds(WithIds(before[..i])) + (if IsCall(e) then {e.callId.value} else {})
      && Nameless(before[..i + 1])
         == Nameless(before[..i]) + (if IsCall(before[i]) && !Truthy(before[i].callId) then 1 else 0)
  {
    assert before[..i + 1] == before[..i] + [before[i]];
    assert Init(before[..i + 1]) == before[..i];
    assert WithIds(before[..i + 1]) == WithIds(before[..i]) + [WithId(i, before[i])];
    CallIdsSnoc(WithIds(before[..i]), WithId(i, before[i]));
  }

  lemma CallIdsSnoc(input: seq<Entry>, e: Entry)
    ensures CallIds(input + [e]) == CallIds(input) + if IsCall(e) && Truthy(e.callId) then {e.callId.value} else {}
  {
    var all := input + [e];
    forall id | id in CallIds(input)
      ensures id in CallIds(all)
    {
      var i :| 0 <= i < |input| && IsCall(input[i]) && Truthy(input[i].callId) && input[i].callId.value == id;
      assert all[i] == input[i];
    }
    assert all[|input|] == e;
  }

  lemma {:induction false} NothingSynthesized(input: seq<Entry>)
    requires Nameless(input) == 0
    ensures WithIds(input) == input
  {
    forall i | 0 <= i < |input|
      ensures WithId(i, input[i]) == input[i]
    {
      NamelessAt(input, i);
    }
  }

  lemma {:induction false} NamelessAt(input: seq<Entry>, i: nat)
    requires i < |input| && Nameless(input) == 0
    ensures IsCall(input[i]) ==> Truthy(input[i].callId)
  {
    if i < |input| - 1 {
      NamelessAt(Init(input), i);
    }
  }

  lemma {:induction false} FilterAll(input: seq<Entry>, known: set<string>)
    requires forall i :: 0 <= i < |input| ==> Keeps(input[i], known)
    ensures Filter(input, known) == input
  {
    if input != [] {
      FilterAll(Init(input), known);
      assert input == Init(input) + [Last(input)];
    }
  }

  // ----- synthesized ids -----

  /** Ids synthesized at different positions differ, whatever the calls are. */
  lemma SyntheticIdsDiffer(i: nat, a: Entry, j: nat, b: Entry)
    requires IsCall(a) && IsCall(b) && SyntheticId(i, a) == SyntheticId(j, b)
    ensures i == j
  {
    var x := "_" + (a.name.GetOr("unknown") + "_" + HashOf(a));
    var y := "_" + (b.name.GetOr("unknown") + "_" + HashOf(b));
    assert PrintNat(i) + x == SyntheticId(i, a)[9..];
    assert PrintNat(j) + y == SyntheticId(j, b)[9..];
    DigitRunOf(PrintNat(i), x);
    DigitRunOf(PrintNat(j), y);
    assert PrintNat(i) == (PrintNat(i) + x)[..|PrintNat(i)|];
    assert PrintNat(j) == (PrintNat(j) + y)[..|PrintNat(j)|];
    DecimalOfPrint(i);
    DecimalOfPrint(j);
  }

  // ----- the validator -----

  predicate Named(e: Entry) {
    e.Entry? && e.name.Some? && Trim(e.name.value) != ""
  }

  function CheckEntry(e: Entry, seen: set<string>): Option<Code> {
    if IsCall(e) then
      if !Truthy(e.callId) then Some(MissingCallId)
      else if e.callId.value in seen then Some(DuplicateCallId)
      else if !Named(e) then Some(EmptyName)
      else None
    else if IsOutput(e) then
      if !Truthy(e.callId) then Some(MissingCallId)
      else if e.callId.value !in seen then Some(OrphanedOutput)
      else None
    else None
  }

  /** The first problem of an input. */
  function Check(input: seq<Entry>): Option<Problem> {
    if input == [] then None
    else
      match Check(Init(input))
      case Some(problem) => Some(problem)
      case None =>
        match CheckEntry(Last(input), CallIds(Init(input)))
        case Some(code) => Some(Problem(code, |input| - 1))
        case None => None
  }

  /** `validateOpenAiResponsesBody` */
  method Validate(input: seq<Entry>) returns (problem: Option<Problem>)
    ensures problem == Check(input)
  {
    var seenCallIds: set<string> := {};
    var i := 0;
    while i < |input|
      invariant 0 <= i <= |input|
      invariant Check(input[..i]) == None && seenCallIds == CallIds(input[..i])
    {
      var e := input[i];
      assert input[..i + 1] == input[..i] + [e];
      assert Init(input[..i + 1]) == input[..i];
      var code := None;
      if IsCall(e) {
        if !Truthy(e.callId) {
          code := Some(MissingCallId);
        } else if e.callId.value in seenCallIds {
          code := Some(DuplicateCallId);
        } else {
          seenCallIds := seenCallIds + {e.callId.value};
          if !Named(e) {
            code := Some(EmptyName);
          }
        }
      } else if IsOutput(e) {
        if !Truthy(e.callId) {
          code := Some(MissingCallId);
        } else if e.callId.value !in seenCallIds {
          code := Some(OrphanedOutput);
        }
      }
      assert code == CheckEntry(e, CallIds(input[..i]));
      if code.Some? {
        FirstProblem(input, i + 1);
        return Some(Problem(code.value, i));
      }
      CallIdsSnoc(input[..i], e);
      i := i + 1;
    }
    assert input[..i] == input;
    problem := None;
  }

  /** A problem in a prefix is the problem of the whole. */
  lemma {:induction false} FirstProblem(input: seq<Entry>, n: nat)
    requires n <= |input| && Check(input[..n]).Some?
    ensures Check(input) == Check(input[..n])
  {
    if n < |input| {
      assert Init(input)[..n] == input[..n];
      FirstProblem(Init(input), n);
    } else {
      assert input[..n] == input;
    }
  }

  /** Every call has an id of its own and a name; every output refers to an earlier call. */
  predicate Accepted(input: seq<Entry>) {
    && (forall i :: 0 <= i < |input| && IsCall(input[i]) ==> Truthy(input[i].callId) && Named(input[i]))
    && (forall i, j :: 0 <= i < j < |input| && IsCall(input[i]) && IsCall(input[j]) ==> input[i].callId != input[j].callId)
    && (forall i :: 0 <= i < |input| && IsOutput(input[i]) ==> Truthy(input[i].callId) && Answers(input, i))
  }

  /** The output at `i` comes after a call with its id. */
  predicate Answers(input: seq<Entry>, i: nat)
    requires i < |input| && IsOutput(input[i])
  {
    exists j :: 0 <= j < i && IsCall(input[j]) && input[j].callId == input[i].callId
  }

  lemma {:induction false} ValidatorExact(input: seq<Entry>)
    ensures Check(input) == None <==> Accepted(input)
  {
    if input != [] {
      ValidatorExact(Init(input));
      AcceptedSnoc(Init(input), Last(input));
      assert input == Init(input) + [Last(input)];
    }
  }

  lemma AcceptedSnoc(before: seq<Entry>, e: Entry)
    ensures Accepted(before + [e]) <==> Accepted(before) && CheckEntry(e, CallIds(before)) == None
  {
    var all := before + [e];
    var n := |before|;
    assert all[n] == e;
    forall i | 0 <= i < n
      ensures all[i] == before[i] && (IsOutput(before[i]) ==> (Answers(all, i) <==> Answers(before, i)))
    {
      if IsOutput(before[i]) {
        if Answers(all, i) {
          var j :| 0 <= j < i && IsCall(all[j]) && all[j].callId == all[i].callId;
          assert before[j] == all[j];
        }
        if Answers(before, i) {
          var j :| 0 <= j < i && IsCall(before[j]) && before[j].callId == before[i].callId;
          assert before[j] == all[j];
        }
      }
    }
    if Accepted(all) {
      AcceptedPrefix(before, e);
    }
    if Accepted(before) && CheckEntry(e, CallIds(before)) == None {
      AcceptedNext(before, e);
    }
  }

  lemma AcceptedPrefix(before: seq<Entry>, e: Entry)
    requires Accepted(before + [e])
    requires forall i :: 0 <= i < |before| ==> (before + [e])[i] == before[i]
    requires forall i :: 0 <= i < |before| && IsOutput(before[i]) && Answers(before + [e], i) ==> Answers(before, i)
    ensures Accepted(before) && CheckEntry(e, CallIds(before)) == None
  {
    var all := before + [e];
    assert all[|before|] == e;
    forall i, j | 0 <= i < j < |before| && IsCall(before[i]) && IsCall(before[j])
      ensures before[i].callId != before[j].callId
    {
      assert all[i] == before[i] && all[j] == before[j];
    }
    if IsOutput(e) {
      assert Answers(all, |before|);
      var j :| 0 <= j < |before| && IsCall(all[j]) && all[j].callId == e.callId;
      assert before[j].callId.value in CallIds(before);
    }
  }

  lemma AcceptedNext(before: seq<Entry>, e: Entry)
    requires Accepted(before) && CheckEntry(e, CallIds(before)) == None
    requires forall i :: 0 <= i < |before| ==> (before + [e])[i] == before[i]
    requires forall i :: 0 <= i < |before| && IsOutput(before[i]) && Answers(before, i) ==> Answers(before + [e], i)
    ensures Accepted(before + [e])
  {
    var all := before + [e];
    var n := |before|;
    assert all[n] == e;
    forall i, j | 0 <= i < j < |all| && IsCall(all[i]) && IsCall(all[j])
      ensures all[i].callId != all[j].callId
    {
      if j == n {
        assert all[i].callId.value in CallIds(before);
      }
    }
    forall i | 0 <= i < |all| && IsOutput(all[i])
      ensures Truthy(all[i].callId) && Answers(all, i)
    {
      if i == n {
        var j :| 0 <= j < |before| && IsCall(before[j]) && Truthy(before[j].callId) && before[j].callId.value == e.callId.value;
        assert all[j] == before[j];
      }
    }
  }

  // ----- repair, then validate -----

  /** Filtering keeps order: the positions of the kept entries increase. */
  function Positions(input: seq<Entry>, known: set<string>): (at: seq<nat>)
    ensures |at| == |Filter(input, known)|
    ensures forall k :: 0 <= k < |at| ==> at[k] < |input| && Filter(input, known)[k] == input[at[k]]
    ensures forall j, k :: 0 <= j < k < |at| ==> at[j] < at[k]
  {
    if input == [] then []
    else Positions(Init(input), known) + if Keeps(Last(input), known) then [|input| - 1] else []
  }

  /** And no others are kept. */
  lemma {:induction false} PositionsCover(input: seq<Entry>, known: set<string>, i: nat)
    requires i < |input|
    ensures Keeps(input[i], known) <==> i in Positions(input, known)
  {
    var before := Positions(Init(input), known);
    if i < |input| - 1 {
      PositionsCover(Init(input), known, i);
    } else {
      assert forall k :: 0 <= k < |before| ==> before[k] != i;
    }
  }

  /** The positions of exactly the kept entries, in order. */
  ghost predicate Locates(at: seq<nat>, input: seq<Entry>, known: set<string>) {
    && |at| == |Filter(input, known)|
    && (forall k :: 0 <= k < |at| ==> at[k] < |input| && Filter(input, known)[k] == input[at[k]])
    && (forall j, k :: 0 <= j < k < |at| ==> at[j] < at[k])
    && (forall i :: 0 <= i < |input| ==> (Keeps(input[i], known) <==> i in at))
  }

  lemma FilterInOrder(input: seq<Entry>, known: set<string>) returns (at: seq<nat>)
    ensures Locates(at, input, known)
  {
    at := Positions(input, known);
    forall i | 0 <= i < |input|
      ensures Keeps(input[i], known) <==> i in at
    {
      PositionsCover(input, known, i);
    }
  }

  /** The position in the repaired input of an entry that is not an orphan. */
  lemma KeptAt(input: seq<Entry>, known: set<string>, at: seq<nat>, i: nat) returns (k: nat)
    requires Locates(at, input, known) && i < |input| && Keeps(input[i], known)
    ensures k < |at| && at[k] == i && Filter(input, known)[k] == input[i]
  {
    k :| 0 <= k < |at| && at[k] == i;
  }

  lemma KeptWas(input: seq<Entry>, known: set<string>, at: seq<nat>, k: nat)
    requires Locates(at, input, known) && k < |at|
    ensures at[k] < |input| && Filter(input, known)[k] == input[at[k]] && Keeps(input[at[k]], known)
  {
    assert at[k] in at;
  }

  /** After repair no id is missing, and an orphan is an output placed before its call. */
  lemma RepairLeavesOnly(input: seq<Entry>, problem: Problem)
    requires Check(Repaired(input)) == Some(problem)
    ensures problem.code != MissingCallId
    ensures problem.code == OrphanedOutput ==>
      var out := Repaired(input);
      && problem.index < |out| && IsOutput(out[problem.index])
      && exists j :: problem.index < j < |out| && IsCall(out[j]) && out[j].callId == out[problem.index].callId
  {
    var filled := WithIds(input);
    var known := CallIds(filled);
    var at := FilterInOrder(filled, known);
    var i := problem.index;
    ProblemAt(Repaired(input));
    KeptWas(filled, known, at, i);
    if problem.code == OrphanedOutput {
      OrphanComesFirst(filled, at, i);
    }
  }

  /** A kept output with no call before it has one after it. */
  lemma OrphanComesFirst(filled: seq<Entry>, at: seq<nat>, i: nat)
    requires Locates(at, filled, CallIds(filled)) && i < |at|
    requires var out := Filter(filled, CallIds(filled)); CheckEntry(out[i], CallIds(out[..i])) == Some(OrphanedOutput)
    ensures var out := Filter(filled, CallIds(filled));
      IsOutput(out[i]) && exists j :: i < j < |out| && IsCall(out[j]) && out[j].callId == out[i].callId
  {
    var out := Filter(filled, CallIds(filled));
    var e := out[i];
    KeptWas(filled, CallIds(filled), at, i);
    var p :| 0 <= p < |filled| && IsCall(filled[p]) && Truthy(filled[p].callId) && filled[p].callId.value == e.callId.value;
    var j := KeptAt(filled, CallIds(filled), at, p);
    if j < i {
      CallIdIn(out, i, j);
    }
    assert IsCall(out[j]) && out[j].callId == e.callId;
  }

  lemma CallIdIn(input: seq<Entry>, i: nat, j: nat)
    requires j < i < |input| && IsCall(input[j]) && Truthy(input[j].callId)
    ensures input[j].callId.value in CallIds(input[..i])
  {
    assert input[..i][j] == input[j];
  }

  /** The entry at which a problem is reported is the one that has it. */
  lemma {:induction false} ProblemAt(input: seq<Entry>)
    requires Check(input).Some?
    ensures var problem := Check(input).value;
      && problem.index < |input|
      && CheckEntry(input[problem.index], CallIds(input[..problem.index])) == Some(problem.code)
  {
    if Check(Init(input)).Some? {
      ProblemAt(Init(input));
      var i := Check(input).value.index;
      assert Init(input)[..i] == input[..i];
    } else {
      assert input[..|input| - 1] == Init(input);
    }
  }

  /** No original id is one the repair pass makes up. */
  predicate NoClash(input: seq<Entry>) {
    forall i, j | 0 <= i < |input| && 0 <= j < |input| && IsCall(input[i]) && IsCall(input[j]) ::
      !Truthy(input[i].callId) && Truthy(input[j].callId) ==> input[j].callId.value != SyntheticId(i, input[i])
  }

  /** The original ids are distinct and the names are not blank. */
  predicate CallsSound(input: seq<Entry>) {
    && (forall i :: 0 <= i < |input| && IsCall(input[i]) ==> Named(input[i]))
    && (forall i, j | 0 <= i < j < |input| && IsCall(input[i]) && IsCall(input[j]) ::
          Truthy(input[i].callId) && Truthy(input[j].callId) ==> input[i].callId != input[j].callId)
  }

  /** Every output with some call's id comes after such a call. */
  predicate OutputsFollow(input: seq<Entry>) {
    forall i :: 0 <= i < |input| && IsOutput(input[i]) && Truthy(input[i].callId) && input[i].callId.value in CallIds(input)
      ==> Answers(input, i)
  }

  /** The filled-in ids are distinct exactly when the original ones are, unless an original is a made-up one. */
  lemma DistinctIds(input: seq<Entry>, i: nat, j: nat)
    requires NoClash(input) && i < j < |input| && IsCall(input[i]) && IsCall(input[j])
    ensures WithId(i, input[i]).callId == WithId(j, input[j]).callId
       <==> Truthy(input[i].callId) && Truthy(input[j].callId) && input[i].callId == input[j].callId
  {
    if !Truthy(input[i].callId) && !Truthy(input[j].callId) && SyntheticId(i, input[i]) == SyntheticId(j, input[j]) {
      SyntheticIdsDiffer(i, input[i], j, input[j]);
    }
  }

  lemma RepairedAccepted(input: seq<Entry>)
    requires NoClash(input) && CallsSound(input) && OutputsFollow(WithIds(input))
    ensures Accepted(Repaired(input))
  {
    var filled := WithIds(input);
    var known := CallIds(filled);
    var out := Repaired(input);
    var at := FilterInOrder(filled, known);
    forall k | 0 <= k < |out|
      ensures IsOutput(out[k]) ==> Truthy(out[k].callId) && Answers(out, k)
      ensures IsCall(out[k]) ==> Truthy(out[k].callId) && Named(out[k])
    {
      KeptWas(filled, known, at, k);
      if IsOutput(out[k]) {
        OutputAnswered(filled, at, k);
      }
    }
    forall j, k | 0 <= j < k < |out| && IsCall(out[j]) && IsCall(out[k])
      ensures out[j].callId != out[k].callId
    {
      DistinctIds(input, at[j], at[k]);
    }
  }

  /** An output that is kept and follows its call in the input follows it in what is kept. */
  lemma OutputAnswered(filled: seq<Entry>, at: seq<nat>, k: nat)
    requires Locates(at, filled, CallIds(filled)) && k < |at| && IsOutput(filled[at[k]]) && Answers(filled, at[k])
    ensures Answers(Filter(filled, CallIds(filled)), k)
  {
    var p :| 0 <= p < at[k] && IsCall(filled[p]) && filled[p].callId == filled[at[k]].callId;
    var j := KeptAt(filled, CallIds(filled), at, p);
    assert j < k;
  }

  /** And the other way round. */
  lemma OutputAnsweredBefore(filled: seq<Entry>, at: seq<nat>, k: nat)
    requires Locates(at, filled, CallIds(filled)) && k < |at| && IsOutput(filled[at[k]])
    requires Answers(Filter(filled, CallIds(filled)), k)
    ensures Answers(filled, at[k])
  {
    var out := Filter(filled, CallIds(filled));
    var j :| 0 <= j < k && IsCall(out[j]) && out[j].callId == out[k].callId;
    assert filled[at[j]] == out[j] && at[j] < at[k];
  }

  lemma AcceptedDistinct(input: seq<Entry>)
    requires Accepted(Repaired(input))
    ensures forall i :: 0 <= i < |input| && IsCall(input[i]) ==> Named(input[i])
    ensures forall i, j | 0 <= i < j < |input| && IsCall(input[i]) && IsCall(input[j]) ::
              WithId(i, input[i]).callId != WithId(j, input[j]).callId
  {
    var filled := WithIds(input);
    var known := CallIds(filled);
    var out := Repaired(input);
    var at := FilterInOrder(filled, known);
    forall i | 0 <= i < |input| && IsCall(input[i])
      ensures Named(input[i])
    {
      var k := KeptAt(filled, known, at, i);
      assert Named(out[k]);
    }
    forall i, j | 0 <= i < j < |input| && IsCall(input[i]) && IsCall(input[j])
      ensures filled[i].callId != filled[j].callId
    {
      var a := KeptAt(filled, known, at, i);
      var b := KeptAt(filled, known, at, j);
      assert a < b;
    }
  }

  lemma AcceptedSoundBefore(input: seq<Entry>)
    requires Accepted(Repaired(input))
    ensures NoClash(input) && CallsSound(input)
  {
    AcceptedDistinct(input);
    forall i, j | 0 <= i < |input| && 0 <= j < |input| && IsCall(input[i]) && IsCall(input[j])
      ensures !Truthy(input[i].callId) && Truthy(input[j].callId) ==> input[j].callId.value != SyntheticId(i, input[i])
    {
      assert i < j ==> WithId(i, input[i]).callId != WithId(j, input[j]).callId;
      assert j < i ==> WithId(j, input[j]).callId != WithId(i, input[i]).callId;
    }
    forall i, j | 0 <= i < j < |input| && IsCall(input[i]) && IsCall(input[j])
      ensures Truthy(input[i].callId) && Truthy(input[j].callId) ==> input[i].callId != input[j].callId
    {
      assert WithId(i, input[i]).callId != WithId(j, input[j]).callId;
    }
  }

  lemma AcceptedFollows(filled: seq<Entry>)
    requires Accepted(Filter(filled, CallIds(filled)))
    ensures OutputsFollow(filled)
  {
    var at := FilterInOrder(filled, CallIds(filled));
    forall i | 0 <= i < |filled| && IsOutput(filled[i]) && Truthy(filled[i].callId) && filled[i].callId.value in CallIds(filled)
      ensures Answers(filled, i)
    {
      var k := KeptAt(filled, CallIds(filled), at, i);
      OutputAnsweredBefore(filled, at, k);
    }
  }

  /**
   * The repaired input is accepted exactly when the original ids are distinct and none of them is one the repair makes
   * up, no name is blank, and every output that survives comes after its call.
   */
  lemma RepairFitsValidator(input: seq<Entry>)
    ensures Check(Repaired(input)) == None <==> NoClash(input) && CallsSound(input) && OutputsFollow(WithIds(input))
  {
    ValidatorExact(Repaired(input));
    if NoClash(input) && CallsSound(input) && OutputsFollow(WithIds(input)) {
      RepairedAccepted(input);
    }
    if Accepted(Repaired(input)) {
      AcceptedSoundBefore(input);
      AcceptedFollows(WithIds(input));
    }
  }

  /** A clash: behind a call that already bears the id it is going to be given. */
  lemma ClashRejected(e: Entry)
    requires IsCall(e) && !Truthy(e.callId) && Named(e)
    ensures var input := [e.(callId := Some(SyntheticId(1, e))), e];
      CallsSound(input) && OutputsFollow(WithIds(input)) && Check(Repaired(input)) != None
  {
    var first := e.(callId := Some(SyntheticId(1, e)));
    ClashFilled(e, first);
    ClashSound(e, first);
    CallsKept([first, first], CallIds([first, first]));
    ValidatorExact([first, first]);
    SameIdTwice(first);
  }

  lemma ClashFilled(e: Entry, first: Entry)
    requires IsCall(e) && !Truthy(e.callId) && first == e.(callId := Some(SyntheticId(1, e)))
    ensures WithIds([first, e]) == [first, first]
  {
    assert SyntheticId(1, e) != "";
  }

  lemma ClashSound(e: Entry, first: Entry)
    requires IsCall(e) && !Truthy(e.callId) && Named(e) && first == e.(callId := Some(SyntheticId(1, e)))
    ensures CallsSound([first, e]) && OutputsFollow([first, first])
  {
  }

  lemma CallsKept(input: seq<Entry>, known: set<string>)
    requires forall i :: 0 <= i < |input| ==> IsCall(input[i])
    ensures Filter(input, known) == input
  {
    FilterAll(input, known);
  }

  lemma SameIdTwice(e: Entry)
    requires IsCall(e)
    ensures !Accepted([e, e])
  {
    assert [e, e][0].callId == [e, e][1].callId;
  }
}
