/** What the Responses repair and validator do, in the words of the request format. */
module ResponsesLaws {
  import opened Options
  import opened Text
  import opened Json
  import opened ToolMetadata
  import opened ResponsesHistory
  import ShortHash

  predicate CallAt(e: Entry) {
    e.Entry? && e.kind == "function_call"
  }

  predicate OutputAt(e: Entry) {
    e.Entry? && e.kind == "function_call_output"
  }

  predicate HasId(e: Entry)
    requires e.Entry?
  {
    e.callId.Some? && e.callId.value != ""
  }

  /** The name has a character that is no white space. */
  predicate HasName(e: Entry)
    requires e.Entry?
  {
    e.name.Some? && exists i :: 0 <= i < |e.name.value| && !IsSpace(e.name.value[i])
  }

  /** One of the first `n` entries is a call with this id. */
  ghost predicate Called(input: seq<Entry>, n: nat, id: string) {
    exists i :: 0 <= i < n && i < |input| && CallAt(input[i]) && input[i].callId == Some(id)
  }

  /** A call has an id that is new and a name; an output has the id of an earlier call. */
  ghost predicate EntryFits(input: seq<Entry>, n: nat)
    requires n < |input|
  {
    var e := input[n];
    && (CallAt(e) ==> HasId(e) && !Called(input, n, e.callId.value) && HasName(e))
    && (OutputAt(e) ==> HasId(e) && Called(input, n, e.callId.value))
  }

  /** Why an entry does not fit: the first of these faults that it has. */
  ghost predicate FaultIs(input: seq<Entry>, n: nat, code: Code)
    requires n < |input|
  {
    var e := input[n];
    (CallAt(e) || OutputAt(e))
    && if !HasId(e) then code == MissingCallId
       else if OutputAt(e) then !Called(input, n, e.callId.value) && code == OrphanedOutput
       else if Called(input, n, e.callId.value) then code == DuplicateCallId
       else !HasName(e) && code == EmptyName
  }

  lemma NamedMeans(e: Entry)
    requires e.Entry?
    ensures Named(e) <==> HasName(e)
  {
    hide IsSpace;
    if e.name.Some? {
      TrimmedAway(e.name.value);
    }
  }

  lemma CalledIs(input: seq<Entry>, n: nat, id: string)
    requires n <= |input| && id != ""
    ensures id in CallIds(input[..n]) <==> Called(input, n, id)
  {
    if Called(input, n, id) {
      var i :| 0 <= i < n && CallAt(input[i]) && input[i].callId == Some(id);
      assert input[..n][i] == input[i];
    }
  }

  lemma EntryVerdict(input: seq<Entry>, n: nat)
    requires n < |input|
    ensures var verdict := CheckEntry(input[n], CallIds(input[..n]));
      && (verdict == None <==> EntryFits(input, n))
      && (verdict.Some? ==> FaultIs(input, n, verdict.value))
  {
    hide HasName, Named, Called, CallIds;
    var e := input[n];
    if e.Entry? {
      NamedMeans(e);
      if HasId(e) {
        CalledIs(input, n, e.callId.value);
      }
    }
  }

  lemma CalledPrefix(input: seq<Entry>, n: nat, id: string)
    requires n < |input|
    ensures Called(Init(input), n, id) <==> Called(input, n, id)
  {
    assert forall i :: 0 <= i < n ==> Init(input)[i] == input[i];
  }

  lemma PrefixFits(input: seq<Entry>, n: nat, code: Code)
    requires n < |input| - 1
    ensures EntryFits(Init(input), n) <==> EntryFits(input, n)
    ensures FaultIs(Init(input), n, code) <==> FaultIs(input, n, code)
  {
    hide Called, HasName;
    var e := input[n];
    if e.Entry? && e.callId.Some? {
      CalledPrefix(input, n, e.callId.value);
    }
  }

  /**
   * The validator accepts an input exactly when every call has an id that is new and a name, and every output the id
   * of an earlier call; else it names the first entry for which this does not hold, and why.
   */
  lemma {:induction false} ValidatorMeans(input: seq<Entry>)
    ensures Check(input) == None <==> forall n :: 0 <= n < |input| ==> EntryFits(input, n)
    ensures Check(input).Some? ==>
              var problem := Check(input).value;
              && problem.index < |input| && FaultIs(input, problem.index, problem.code)
              && !EntryFits(input, problem.index) && forall i :: 0 <= i < problem.index ==> EntryFits(input, i)
  {
    hide CheckEntry, EntryFits, FaultIs, CallIds;
    if input != [] {
      var n := |input| - 1;
      ValidatorMeans(Init(input));
      EntryVerdict(input, n);
      forall i | 0 <= i < n ensures EntryFits(Init(input), i) <==> EntryFits(input, i) {
        PrefixFits(input, i, MissingCallId);
      }
      if Check(Init(input)).Some? {
        PrefixFits(input, Check(Init(input)).value.index, Check(Init(input)).value.code);
      }
    }
  }

  // ----- the repair -----

  /** The id of a call: its own, or else one made up of its position, its name and the hash of its arguments. */
  function IdOf(i: nat, e: Entry): string
    requires CallAt(e)
  {
    if e.callId.Some? && e.callId.value != "" then e.callId.value
    else
      "repaired_" + PrintNat(i) + "_" + (if e.name.Some? then e.name.value else "unknown") + "_"
      + (if e.arguments.Some? then ShortHash.HashText(e.arguments.value) else "0")
  }

  /** Some call of the input has this id, its own or made up. */
  ghost predicate Known(input: seq<Entry>, id: string) {
    exists i :: 0 <= i < |input| && CallAt(input[i]) && IdOf(i, input[i]) == id
  }

  /** Not an output, or the output of some call. */
  ghost predicate Remains(input: seq<Entry>, e: Entry) {
    OutputAt(e) ==> HasId(e) && Known(input, e.callId.value)
  }

  lemma FilledIs(i: nat, e: Entry)
    ensures WithId(i, e) == if CallAt(e) then e.(callId := Some(IdOf(i, e))) else e
  {
    hide PrintNat, ShortHash.HashText;
    if CallAt(e) && !Truthy(e.callId) {
      var name, hash := "_" + e.name.GetOr("unknown"), "_" + HashOf(e);
      Regroup("repaired_" + PrintNat(i), name, hash);
      Regroup("repaired_", PrintNat(i), name + hash);
      assert "repaired_" + PrintNat(i) + name + hash == IdOf(i, e);
      assert name + hash == "_" + (e.name.GetOr("unknown") + "_" + HashOf(e));
    }
  }

  lemma IdNotEmpty(i: nat, e: Entry)
    requires CallAt(e)
    ensures IdOf(i, e) != ""
  {
  }

  lemma KnownIs(input: seq<Entry>, id: string)
    requires id != ""
    ensures id in CallIds(WithIds(input)) <==> Known(input, id)
  {
    hide IdOf, WithId;
    var filled := WithIds(input);
    forall i | 0 <= i < |input|
      ensures filled[i] == if CallAt(input[i]) then input[i].(callId := Some(IdOf(i, input[i]))) else input[i]
    {
      FilledIs(i, input[i]);
    }
    if i :| 0 <= i < |input| && CallAt(input[i]) && IdOf(i, input[i]) == id {
      assert IsCall(filled[i]) && Truthy(filled[i].callId);
    }
  }

  /** The repair gives every call an id, and takes out the outputs of which no call has the id; all else stays, in order. */
  lemma RepairMeans(input: seq<Entry>) returns (at: seq<nat>)
    ensures |at| == |Repaired(input)| && forall j, k :: 0 <= j < k < |at| ==> at[j] < at[k]
    ensures forall k :: 0 <= k < |at| ==>
              && at[k] < |input|
              && Repaired(input)[k] == if CallAt(input[at[k]]) then input[at[k]].(callId := Some(IdOf(at[k], input[at[k]]))) else input[at[k]]
    ensures forall i :: 0 <= i < |input| ==> (i in at <==> Remains(input, input[i]))
  {
    hide IdOf, WithId, Filter, CallIds, Remains, Keeps;
    var filled := WithIds(input);
    at := FilterInOrder(filled, CallIds(filled));
    forall i | 0 <= i < |input|
      ensures filled[i] == if CallAt(input[i]) then input[i].(callId := Some(IdOf(i, input[i]))) else input[i]
      ensures Keeps(filled[i], CallIds(filled)) <==> Remains(input, input[i])
    {
      FilledIs(i, input[i]);
      RemainsIs(input, i);
    }
  }

  lemma RemainsIs(input: seq<Entry>, i: nat)
    requires i < |input|
    ensures Keeps(WithIds(input)[i], CallIds(WithIds(input))) <==> Remains(input, input[i])
  {
    hide CallIds, Known, SyntheticId;
    if OutputAt(input[i]) && HasId(input[i]) {
      KnownIs(input, input[i].callId.value);
    }
  }

  lemma {:induction false} NamelessMeans(input: seq<Entry>)
    ensures Nameless(input) == 0 <==> forall i :: 0 <= i < |input| && CallAt(input[i]) ==> HasId(input[i])
  {
    if input != [] {
      NamelessMeans(Init(input));
      assert input == Init(input) + [Last(input)];
    }
  }

  /** The repair throws exactly when every call has an id and an element is absent before any output. */
  lemma ThrowsMeans(input: seq<Entry>)
    ensures Throws(input) <==>
      && (forall i :: 0 <= i < |input| && CallAt(input[i]) ==> HasId(input[i]))
      && exists i :: 0 <= i < |input| && input[i].Missing? && forall j :: 0 <= j < i ==> !OutputAt(input[j])
  {
    hide Nameless;
    NamelessMeans(input);
  }
}
