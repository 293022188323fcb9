/** Accessibility snapshots and the stable references they hand out to page elements. */
module ElementRefs {
  import opened Options
  import opened Text
  import Json

  datatype PropValue = True | TrueText | FalseText | Other

  datatype Prop = Prop(name: string, value: PropValue)

  /** The raw value of a node: absent, a string, or anything else with its printed form. */
  datatype RawValue = Undefined | Text(text: string) | Printed(text: string)

  datatype Node = Node(
    role: Option<string>, name: Option<string>, value: RawValue, description: Option<string>,
    backendId: Option<int>, props: seq<Prop>)

  datatype Flags = Flags(focused: bool, checked: bool, disabled: bool, focusable: bool)

  /** A node worth reporting. */
  datatype Entry = Entry(
    backendId: Option<int>, role: string, name: string, value: Option<string>, description: Option<string>,
    focused: bool, checked: bool, disabled: bool)

  datatype AccessNode = AccessNode(
    ref: string, role: string, name: string, value: Option<string>, description: Option<string>,
    focused: bool, checked: bool, disabled: bool)

  datatype Detail = Detail(role: string, name: string)

  /** `refs` and `details` belong to the current snapshot, `known` and `counter` to the whole session. */
  datatype State = State(refs: map<string, int>, details: map<string, Detail>, known: map<int, string>, counter: nat)

  const INITIAL := State(map[], map[], map[], 0)

  const MAX_NODES := 500

  const INTERACTIVE_ROLES := [
    "button", "link", "textbox", "searchbox", "combobox", "checkbox", "radio", "switch", "slider", "spinbutton",
    "tab", "menuitem", "menuitemcheckbox", "menuitemradio", "option", "treeitem", "row", "cell", "columnheader",
    "rowheader", "gridcell"]

  const CONTENT_ROLES := [
    "heading", "img", "table", "list", "listitem", "paragraph", "blockquote", "article", "main", "navigation",
    "complementary", "contentinfo", "banner", "form", "region", "alert", "dialog", "alertdialog", "status",
    "progressbar", "meter", "timer"]

  const FALLBACK_EXCLUDED_ROLES := ["none", "generic", "rootwebarea", "webarea"]

  // ---------------------------------------------------------------- which nodes are worth reporting

  function LowerChar(c: char): char {
    if 'A' <= c <= 'Z' then c + 32 as char else c
  }

  function Lower(s: string): string {
    if s == "" then "" else [LowerChar(s[0])] + Lower(s[1..])
  }

  function Normalized(s: Option<string>): string {
    Trim(s.GetOr(""))
  }

  function Role(node: Node): string {
    Lower(Normalized(node.role))
  }

  predicate HasValue(node: Node) {
    node.value != Undefined && node.value != Text("")
  }

  function ValueOf(node: Node): Option<string> {
    if HasValue(node) then Some(node.value.text) else None
  }

  function DescriptionOf(node: Node): Option<string> {
    var d := Normalized(node.description);
    if d == "" then None else Some(d)
  }

  /** The flags the properties set; a later `checked` overrides an earlier one unless it is the text `false`. */
  function FlagsOf(props: seq<Prop>): Flags {
    if props == [] then Flags(false, false, false, false)
    else
      var f, p := FlagsOf(Init(props)), Last(props);
      if p.name == "focused" && p.value == True then f.(focused := true)
      else if p.name == "checked" && p.value != FalseText then f.(checked := p.value == True || p.value == TrueText)
      else if p.name == "disabled" && p.value == True then f.(disabled := true)
      else if p.name == "focusable" && p.value == True then f.(focusable := true)
      else f
  }

  predicate Primary(node: Node) {
    var role, name := Role(node), Normalized(node.name);
    && (role in INTERACTIVE_ROLES || (role in CONTENT_ROLES && name != "") || HasValue(node))
    && !(role in ["", "generic", "none"] && name == "")
  }

  /** A node that is reported only when the page has no primary node at all. */
  predicate Fallback(node: Node) {
    var role, f := Role(node), FlagsOf(node.props);
    && !Primary(node)
    && node.backendId.Some? && node.backendId.value != 0
    && role !in FALLBACK_EXCLUDED_ROLES
    && (Normalized(node.name) != "" || HasValue(node) || f.focusable || f.focused)
  }

  function EntryOf(node: Node): Entry {
    var f := FlagsOf(node.props);
    Entry(node.backendId, Role(node), Normalized(node.name), ValueOf(node), DescriptionOf(node),
          f.focused, f.checked, f.disabled)
  }

  function Primaries(nodes: seq<Node>): seq<Entry> {
    if nodes == [] then []
    else Primaries(Init(nodes)) + (if Primary(Last(nodes)) then [EntryOf(Last(nodes))] else [])
  }

  function Fallbacks(nodes: seq<Node>): seq<Entry> {
    if nodes == [] then []
    else Fallbacks(Init(nodes)) + (if Fallback(Last(nodes)) then [EntryOf(Last(nodes))] else [])
  }

  /** The entries a snapshot is made of, in tree order. */
  function Chosen(nodes: seq<Node>): seq<Entry> {
    if Primaries(nodes) != [] then Primaries(nodes) else Fallbacks(nodes)
  }

  predicate Repeats(entries: seq<Entry>, e: Entry) {
    e.backendId.Some? && exists i :: 0 <= i < |entries| && entries[i].backendId == e.backendId
  }

  /** Every element once, where it first occurs; entries without an element are all kept. */
  function FirstOccurrences(entries: seq<Entry>): (r: seq<Entry>) {
    if entries == [] then []
    else
      var before := FirstOccurrences(Init(entries));
      if Repeats(before, Last(entries)) then before else before + [Last(entries)]
  }

  function Cut(entries: seq<Entry>): seq<Entry> {
    if |entries| <= MAX_NODES then entries else entries[..MAX_NODES]
  }

  // ---------------------------------------------------------------- handing out references

  function RefName(n: nat): string {
    "@e" + Json.PrintNat(n)
  }

  lemma RefNameInjective(m: nat, n: nat)
    requires RefName(m) == RefName(n)
    ensures m == n
  {
    assert RefName(m)[2..] == Json.PrintNat(m) && RefName(n)[2..] == Json.PrintNat(n);
    Json.DecimalOfPrint(m);
    Json.DecimalOfPrint(n);
  }

  function Allocate(s: State, id: Option<int>): (r: (State, string)) {
    if id.Some? && id.value in s.known && s.known[id.value] != "" then (s, s.known[id.value])
    else
      var ref := RefName(s.counter + 1);
      (s.(counter := s.counter + 1, known := if id.Some? then s.known[id.value := ref] else s.known), ref)
  }

  /** A snapshot being taken. */
  datatype Taking = Taking(state: State, result: seq<AccessNode>, seen: set<int>)

  function NodeOf(e: Entry, ref: string): AccessNode {
    AccessNode(ref, e.role, e.name, e.value, e.description, e.focused, e.checked, e.disabled)
  }

  predicate Skips(t: Taking, e: Entry) {
    |t.result| >= MAX_NODES || (e.backendId.Some? && e.backendId.value in t.seen)
  }

  function Record(s: State, ref: string, e: Entry): State {
    s.(refs := if e.backendId.Some? then s.refs[ref := e.backendId.value] else s.refs,
       details := s.details[ref := Detail(e.role, e.name)])
  }

  function Push(t: Taking, e: Entry): Taking {
    if Skips(t, e) then t
    else
      var (s, ref) := Allocate(t.state, e.backendId);
      Taking(Record(s, ref, e),
             t.result + [NodeOf(e, ref)],
             if e.backendId.Some? then t.seen + {e.backendId.value} else t.seen)
  }

  function PushAll(t: Taking, entries: seq<Entry>): Taking {
    if entries == [] then t else Push(PushAll(t, Init(entries)), Last(entries))
  }

  function Cleared(s: State): Taking {
    Taking(s.(refs := map[], details := map[]), [], {})
  }

  function Snapshot(s: State, nodes: seq<Node>): Taking {
    PushAll(Cleared(s), Chosen(nodes))
  }

  // ---------------------------------------------------------------- what holds of every reference

  /** The reference has been handed out. */
  ghost predicate Issued(ref: string, counter: nat) {
    exists k: nat :: 1 <= k <= counter && ref == RefName(k)
  }

  ghost predicate Valid(s: State) {
    && (forall id :: id in s.known ==> Issued(s.known[id], s.counter))
    && (forall a, b :: a in s.known && b in s.known && s.known[a] == s.known[b] ==> a == b)
    && (forall ref :: ref in s.refs ==> s.refs[ref] in s.known && s.known[s.refs[ref]] == ref)
  }

  /** `t` is a later state: elements keep their references, and new references have not been handed out before. */
  ghost predicate Later(s: State, t: State) {
    && s.counter <= t.counter
    && (forall id :: id in s.known ==> id in t.known && t.known[id] == s.known[id])
    && (forall id :: id in t.known && id !in s.known ==> !Issued(t.known[id], s.counter))
  }

  lemma IssuedMore(ref: string, m: nat, n: nat)
    requires Issued(ref, m) && m <= n
    ensures Issued(ref, n)
  {
    var k: nat :| 1 <= k <= m && ref == RefName(k);
  }

  lemma FreshIsNew(s: State)
    ensures !Issued(RefName(s.counter + 1), s.counter) && Issued(RefName(s.counter + 1), s.counter + 1)
    ensures RefName(s.counter + 1) != ""
  {
    if Issued(RefName(s.counter + 1), s.counter) {
      var k: nat :| 1 <= k <= s.counter && RefName(s.counter + 1) == RefName(k);
      RefNameInjective(k, s.counter + 1);
    }
  }

  lemma IssuedIsNotEmpty(ref: string, n: nat)
    requires Issued(ref, n)
    ensures ref != ""
  {
    var k: nat :| 1 <= k <= n && ref == RefName(k);
  }

  lemma LaterTrans(a: State, b: State, c: State)
    requires Later(a, b) && Later(b, c)
    ensures Later(a, c)
  {
    hide Issued;
    forall id | id in c.known && id !in a.known ensures !Issued(c.known[id], a.counter) {
      if id in b.known {
        assert c.known[id] == b.known[id];
      } else if Issued(c.known[id], a.counter) {
        IssuedMore(c.known[id], a.counter, b.counter);
      }
    }
  }

  lemma AllocateOld(s: State, id: int)
    requires Valid(s) && id in s.known
    ensures Allocate(s, Some(id)) == (s, s.known[id]) && Issued(s.known[id], s.counter)
  {
    IssuedIsNotEmpty(s.known[id], s.counter);
  }

  lemma AllocateNew(s: State, id: Option<int>)
    requires Valid(s) && (id.Some? ==> id.value !in s.known)
    ensures var (t, ref) := Allocate(s, id);
            && Valid(t) && Later(s, t) && Issued(ref, t.counter) && !Issued(ref, s.counter)
            && t.refs == s.refs && t.details == s.details
            && t.known == if id.Some? then s.known[id.value := ref] else s.known
  {
    FreshIsNew(s);
    var t := Allocate(s, id).0;
    forall i | i in t.known ensures Issued(t.known[i], t.counter) {
      if i in s.known {
        IssuedMore(s.known[i], s.counter, s.counter + 1);
      }
    }
  }

  /** What holds while a snapshot that began in `s` is taken over `entries`. */
  ghost predicate Coming(s: State, entries: seq<Entry>, t: Taking) {
    var kept := Cut(FirstOccurrences(entries));
    && Valid(t.state) && Later(s, t.state)
    && |t.result| == |kept|
    && (forall i :: 0 <= i < |kept| ==> t.result[i] == NodeOf(kept[i], t.result[i].ref))
    && (forall id :: id in t.seen <==> exists i :: 0 <= i < |kept| && kept[i].backendId == Some(id))
    && RefsMatch(t.state, kept, t.result)
  }

  /** Each entry's reference, and what the current maps say about it. */
  ghost predicate RefsMatch(s: State, kept: seq<Entry>, result: seq<AccessNode>)
    requires |result| == |kept|
  {
    && (forall i :: 0 <= i < |kept| ==> RefMatches(s, kept[i], result[i].ref))
    && (forall i, j :: 0 <= i < j < |kept| ==> result[i].ref != result[j].ref)
    && (forall ref :: ref in s.refs ==>
          exists i :: 0 <= i < |kept| && result[i].ref == ref && kept[i].backendId == Some(s.refs[ref]))
    && (forall ref :: ref in s.details ==> exists i :: 0 <= i < |kept| && result[i].ref == ref)
  }

  ghost predicate RefMatches(s: State, e: Entry, ref: string) {
    && Issued(ref, s.counter)
    && ref in s.details && s.details[ref] == Detail(e.role, e.name)
    && match e.backendId
       case Some(id) => id in s.known && s.known[id] == ref && ref in s.refs && s.refs[ref] == id
       case None => ref !in s.refs && forall id :: id in s.known ==> s.known[id] != ref
  }

  /** A reference about to be recorded differs from every reference of the snapshot so far, and leaves it as it was. */
  lemma RecordKeeps(s: State, e: Entry, kept: Entry, earlier: string)
    requires Valid(s) && RefMatches(s, kept, earlier)
    requires e.backendId.Some? ==> kept.backendId != e.backendId
    ensures var (u, ref) := Allocate(s, e.backendId);
            ref != earlier && RefMatches(Record(u, ref, e), kept, earlier)
  {
    if e.backendId.Some? && e.backendId.value in s.known {
      AllocateOld(s, e.backendId.value);
    } else {
      AllocateNew(s, e.backendId);
      IssuedMore(earlier, s.counter, s.counter + 1);
    }
  }

  lemma RecordMatches(s: State, e: Entry)
    requires Valid(s)
    requires forall r :: r in s.refs ==> Issued(r, s.counter)
    ensures var (u, ref) := Allocate(s, e.backendId);
            RefMatches(Record(u, ref, e), e, ref) && Valid(Record(u, ref, e)) && Later(s, Record(u, ref, e))
  {
    if e.backendId.Some? && e.backendId.value in s.known {
      AllocateOld(s, e.backendId.value);
    } else {
      AllocateNew(s, e.backendId);
    }
  }

  lemma AllocateFrame(s: State, id: Option<int>)
    ensures Allocate(s, id).0.refs == s.refs && Allocate(s, id).0.details == s.details
  {
  }

  lemma RefsAreIssued(s: State, kept: seq<Entry>, result: seq<AccessNode>)
    requires |result| == |kept| && RefsMatch(s, kept, result)
    ensures forall r :: r in s.refs ==> Issued(r, s.counter)
  {
    forall r | r in s.refs ensures Issued(r, s.counter) {
      var i :| 0 <= i < |kept| && result[i].ref == r && kept[i].backendId == Some(s.refs[r]);
      assert RefMatches(s, kept[i], result[i].ref);
    }
  }

  lemma PushMatches(s: State, kept: seq<Entry>, result: seq<AccessNode>, e: Entry)
    requires |result| == |kept| && Valid(s) && RefsMatch(s, kept, result)
    requires e.backendId.Some? ==> forall i :: 0 <= i < |kept| ==> kept[i].backendId != e.backendId
    ensures var (u, ref) := Allocate(s, e.backendId);
            && Valid(Record(u, ref, e)) && Later(s, Record(u, ref, e))
            && RefsMatch(Record(u, ref, e), kept + [e], result + [NodeOf(e, ref)])
  {
    hide RefMatches, Issued, RefName, Valid, Later, Allocate;
    RefsAreIssued(s, kept, result);
    RecordMatches(s, e);
    var (u, ref) := Allocate(s, e.backendId);
    assert u.refs == s.refs && u.details == s.details by {
      AllocateFrame(s, e.backendId);
    }
    var t, kept', result' := Record(u, ref, e), kept + [e], result + [NodeOf(e, ref)];
    forall i | 0 <= i < |kept|
      ensures RefMatches(t, kept[i], result[i].ref) && result[i].ref != ref
    {
      RecordKeeps(s, e, kept[i], result[i].ref);
    }
    forall r | r in t.refs
      ensures exists i :: 0 <= i < |kept'| && result'[i].ref == r && kept'[i].backendId == Some(t.refs[r])
    {
      if r == ref && e.backendId.Some? {
        assert result'[|kept|].ref == r && kept'[|kept|].backendId == Some(t.refs[r]);
      } else {
        var i :| 0 <= i < |kept| && result[i].ref == r && kept[i].backendId == Some(s.refs[r]);
        assert result'[i].ref == r && kept'[i].backendId == Some(t.refs[r]);
      }
    }
    forall r | r in t.details ensures exists i :: 0 <= i < |kept'| && result'[i].ref == r {
      if r == ref {
        assert result'[|kept|].ref == r;
      } else {
        var i :| 0 <= i < |kept| && result[i].ref == r;
        assert result'[i].ref == r;
      }
    }
  }

  lemma FirstSnoc(entries: seq<Entry>, e: Entry)
    ensures FirstOccurrences(entries + [e]) ==
            if Repeats(FirstOccurrences(entries), e) then FirstOccurrences(entries)
            else FirstOccurrences(entries) + [e]
  {
    assert Init(entries + [e]) == entries;
  }

  lemma CutSnoc(xs: seq<Entry>, e: Entry)
    ensures Cut(xs + [e]) == if |Cut(xs)| < MAX_NODES then Cut(xs) + [e] else Cut(xs)
    ensures |Cut(xs)| < MAX_NODES ==> Cut(xs) == xs
  {
  }

  lemma SeenRepeats(kept: seq<Entry>, seen: set<int>, e: Entry)
    requires forall id :: id in seen <==> exists i :: 0 <= i < |kept| && kept[i].backendId == Some(id)
    ensures Repeats(kept, e) <==> e.backendId.Some? && e.backendId.value in seen
  {
    if e.backendId.Some? {
      var id := e.backendId.value;
      assert Some(id) == e.backendId;
      if id in seen {
        var i :| 0 <= i < |kept| && kept[i].backendId == Some(id);
        assert kept[i].backendId == e.backendId;
      }
      if Repeats(kept, e) {
        var i :| 0 <= i < |kept| && kept[i].backendId == e.backendId;
        assert kept[i].backendId == Some(id);
      }
    }
  }

  lemma SkipsWhenKept(s: State, entries: seq<Entry>, t: Taking, e: Entry)
    requires Coming(s, entries, t)
    ensures var kept, next := Cut(FirstOccurrences(entries)), Cut(FirstOccurrences(entries + [e]));
            if Skips(t, e) then next == kept
            else next == kept + [e] && !Repeats(kept, e)
  {
    hide Valid, Later, RefsMatch, FirstOccurrences, Cut;
    var first := FirstOccurrences(entries);
    FirstSnoc(entries, e);
    CutSnoc(first, e);
    SeenRepeats(Cut(first), t.seen, e);
  }

  lemma PushRecords(s: State, t: Taking, kept: seq<Entry>, e: Entry)
    requires |t.result| == |kept| && Valid(t.state) && Later(s, t.state) && RefsMatch(t.state, kept, t.result)
    requires !Skips(t, e) && !Repeats(kept, e)
    ensures var after := Push(t, e);
            && Valid(after.state) && Later(s, after.state)
            && |after.result| == |kept + [e]| && RefsMatch(after.state, kept + [e], after.result)
  {
    hide RefsMatch, Valid, Later, Allocate, Record;
    assert e.backendId.Some? ==> forall i :: 0 <= i < |kept| ==> kept[i].backendId != e.backendId;
    PushMatches(t.state, kept, t.result, e);
    LaterTrans(s, t.state, Push(t, e).state);
  }

  lemma PushComes(s: State, entries: seq<Entry>, t: Taking, e: Entry)
    requires Coming(s, entries, t)
    ensures Coming(s, entries + [e], Push(t, e))
  {
    hide RefsMatch, Valid, Later, FirstOccurrences, Allocate, Cut, Record;
    SkipsWhenKept(s, entries, t, e);
    if !Skips(t, e) {
      var kept := Cut(FirstOccurrences(entries));
      PushRecords(s, t, kept, e);
      SeenGrows(kept, e, t.seen);
    }
  }

  lemma SeenGrows(kept: seq<Entry>, e: Entry, seen: set<int>)
    requires forall id :: id in seen <==> exists i :: 0 <= i < |kept| && kept[i].backendId == Some(id)
    ensures var more := if e.backendId.Some? then seen + {e.backendId.value} else seen;
            forall id :: id in more <==> exists i :: 0 <= i < |kept + [e]| && (kept + [e])[i].backendId == Some(id)
  {
    var kept' := kept + [e];
    var more := if e.backendId.Some? then seen + {e.backendId.value} else seen;
    forall id | id in more ensures exists i :: 0 <= i < |kept'| && kept'[i].backendId == Some(id) {
      if id in seen {
        var i :| 0 <= i < |kept| && kept[i].backendId == Some(id);
        assert kept'[i].backendId == Some(id);
      } else {
        assert kept'[|kept|].backendId == Some(id);
      }
    }
    forall id, i | 0 <= i < |kept'| && kept'[i].backendId == Some(id) ensures id in more {
      if i < |kept| {
        assert kept[i].backendId == Some(id);
      }
    }
  }

  lemma NothingCome(s: State)
    requires Valid(s)
    ensures Coming(s, [], Cleared(s))
  {
    hide Issued;
  }

  lemma {:induction false} AllCome(s: State, entries: seq<Entry>)
    requires Valid(s)
    ensures Coming(s, entries, PushAll(Cleared(s), entries))
  {
    hide Push, Coming, Valid;
    if entries == [] {
      NothingCome(s);
    } else {
      AllCome(s, Init(entries));
      PushComes(s, Init(entries), PushAll(Cleared(s), Init(entries)), Last(entries));
      assert Init(entries) + [Last(entries)] == entries;
    }
  }

  // ---------------------------------------------------------------- main results

  /** A snapshot lists the first 500 distinct elements in tree order, each with its own data and its own reference. */
  lemma SnapshotLists(s: State, nodes: seq<Node>)
    requires Valid(s)
    ensures var kept, result := Cut(FirstOccurrences(Chosen(nodes))), Snapshot(s, nodes).result;
            && |result| == |kept| <= MAX_NODES
            && (forall i :: 0 <= i < |kept| ==> result[i] == NodeOf(kept[i], result[i].ref))
            && (forall i, j :: 0 <= i < j < |kept| ==> result[i].ref != result[j].ref)
  {
    AllCome(s, Chosen(nodes));
  }

  /** References resolve to exactly the listed elements. */
  ghost predicate Resolves(kept: seq<Entry>, result: seq<AccessNode>, s: State)
    requires |result| == |kept|
  {
    && (forall i :: 0 <= i < |kept| && kept[i].backendId.Some? ==>
          result[i].ref in s.refs && s.refs[result[i].ref] == kept[i].backendId.value)
    && (forall ref :: ref in s.refs ==>
          exists i :: 0 <= i < |kept| && result[i].ref == ref && kept[i].backendId == Some(s.refs[ref]))
  }

  /** Each listed reference has the role and name of its entry, and no other reference has any. */
  ghost predicate Detailed(kept: seq<Entry>, result: seq<AccessNode>, s: State)
    requires |result| == |kept|
  {
    && (forall ref :: ref in s.details <==> exists i :: 0 <= i < |kept| && result[i].ref == ref)
    && (forall i :: 0 <= i < |kept| ==>
          result[i].ref in s.details && s.details[result[i].ref] == Detail(kept[i].role, kept[i].name))
  }

  /** The references of the snapshot are those of the session's table. */
  ghost predicate Inverse(s: State) {
    forall ref :: ref in s.refs ==> s.refs[ref] in s.known && s.known[s.refs[ref]] == ref
  }

  /** The references of a snapshot and the elements they resolve to are inverse to the session's element table, and nothing else resolves. */
  lemma RefsInvertElements(s: State, nodes: seq<Node>)
    requires Valid(s)
    ensures var kept, t := Cut(FirstOccurrences(Chosen(nodes))), Snapshot(s, nodes);
            |t.result| == |kept| && Resolves(kept, t.result, t.state) && Detailed(kept, t.result, t.state) && Inverse(t.state)
  {
    hide Coming, FirstOccurrences, Chosen, Snapshot, Resolves, Detailed, Inverse;
    AllCome(s, Chosen(nodes));
    assert Snapshot(s, nodes) == PushAll(Cleared(s), Chosen(nodes)) by { SnapshotIs(s, nodes); }
    ComingRefs(s, Chosen(nodes), Snapshot(s, nodes));
  }

  lemma SnapshotIs(s: State, nodes: seq<Node>)
    ensures Snapshot(s, nodes) == PushAll(Cleared(s), Chosen(nodes))
  {
  }

  lemma AllResolve(s: State, kept: seq<Entry>, result: seq<AccessNode>)
    requires |result| == |kept| && RefsMatch(s, kept, result)
    ensures Resolves(kept, result, s)
  {
    hide Issued;
    forall i | 0 <= i < |kept| && kept[i].backendId.Some?
      ensures result[i].ref in s.refs && s.refs[result[i].ref] == kept[i].backendId.value
    {
      assert RefMatches(s, kept[i], result[i].ref);
    }
  }

  lemma AllDetailed(s: State, kept: seq<Entry>, result: seq<AccessNode>)
    requires |result| == |kept| && RefsMatch(s, kept, result)
    ensures Detailed(kept, result, s)
  {
    hide Issued;
    forall i | 0 <= i < |kept|
      ensures result[i].ref in s.details && s.details[result[i].ref] == Detail(kept[i].role, kept[i].name)
    {
      assert RefMatches(s, kept[i], result[i].ref);
    }
  }

  lemma ComingRefs(s: State, entries: seq<Entry>, t: Taking)
    requires Coming(s, entries, t)
    ensures var kept := Cut(FirstOccurrences(entries));
            |t.result| == |kept| && Resolves(kept, t.result, t.state) && Detailed(kept, t.result, t.state) && Inverse(t.state)
  {
    hide Issued, FirstOccurrences, Cut, Later, RefsMatch, Resolves, Detailed;
    var kept := Cut(FirstOccurrences(entries));
    AllResolve(t.state, kept, t.result);
    AllDetailed(t.state, kept, t.result);
  }

  /** Elements outside the primary roles are listed only when the page has no primary node. */
  lemma FallbackOnlyAlone(s: State, nodes: seq<Node>, i: nat)
    requires Valid(s) && i < |Snapshot(s, nodes).result|
    requires exists n :: n in nodes && Primary(n)
    ensures exists n :: n in nodes && Primary(n) &&
                        Snapshot(s, nodes).result[i] == NodeOf(EntryOf(n), Snapshot(s, nodes).result[i].ref)
  {
    hide Primary, EntryOf, Chosen, FirstOccurrences, Valid, Snapshot;
    SnapshotLists(s, nodes);
    PrimariesAre(nodes);
    PrimariesChosen(nodes);
    var e := Cut(FirstOccurrences(Chosen(nodes)))[i];
    FirstOccurrencesMean(Chosen(nodes));
    assert e in FirstOccurrences(Chosen(nodes));
    var n :| n in nodes && Primary(n) && EntryOf(n) == e;
  }

  lemma PrimariesChosen(nodes: seq<Node>)
    requires exists n :: n in nodes && Primary(n)
    ensures Chosen(nodes) == Primaries(nodes)
  {
    hide Primary, EntryOf;
    PrimariesAre(nodes);
    var n :| n in nodes && Primary(n);
    assert EntryOf(n) in Primaries(nodes);
  }

  /** Every entry kept is one of the entries, no element is kept twice, and no element is lost. */
  lemma {:induction false} FirstOccurrencesMean(entries: seq<Entry>)
    ensures var r := FirstOccurrences(entries);
            && (forall e :: e in r ==> e in entries)
            && (forall i, j :: 0 <= i < j < |r| && r[i].backendId.Some? ==> r[i].backendId != r[j].backendId)
            && (forall e :: e in entries ==> e in r || Repeats(r, e))
  {
    if entries != [] {
      var before, e := FirstOccurrences(Init(entries)), Last(entries);
      FirstOccurrencesMean(Init(entries));
      assert entries == Init(entries) + [e];
      forall x | x in entries ensures x in FirstOccurrences(entries) || Repeats(FirstOccurrences(entries), x) {
        if x in Init(entries) && x !in before {
          var i :| 0 <= i < |before| && before[i].backendId == x.backendId;
          assert FirstOccurrences(entries)[i].backendId == x.backendId;
        }
      }
    }
  }

  lemma {:induction false} PrimariesAre(nodes: seq<Node>)
    ensures forall e :: e in Primaries(nodes) <==> exists n :: n in nodes && Primary(n) && EntryOf(n) == e
  {
    hide Primary, EntryOf;
    if nodes != [] {
      PrimariesAre(Init(nodes));
      assert nodes == Init(nodes) + [Last(nodes)];
    }
  }

  ghost predicate Increasing(at: seq<nat>, bound: nat) {
    (forall k :: 0 <= k < |at| ==> at[k] < bound) && (forall j, k :: 0 <= j < k < |at| ==> at[j] < at[k])
  }

  /** Where the first occurrences are: nothing before them has the same element. */
  lemma {:induction false} FirstAt(entries: seq<Entry>) returns (at: seq<nat>)
    ensures Increasing(at, |entries|) && |at| == |FirstOccurrences(entries)|
    ensures forall k :: 0 <= k < |at| ==> FirstOccurrences(entries)[k] == entries[at[k]]
    ensures forall j, k :: 0 <= k < |at| && 0 <= j < at[k] && entries[j].backendId.Some? ==>
              entries[j].backendId != entries[at[k]].backendId
    ensures CoversFirsts(at, entries)
  {
    hide CoversFirsts, Repeats;
    NoFirsts();
    at := [];
    if entries != [] {
      var before, e := Init(entries), Last(entries);
      at := FirstAt(before);
      var earlier := at;
      if !Repeats(FirstOccurrences(before), e) {
        NotRepeated(before, e);
        at := at + [|before|];
      } else {
        RepeatsEarlier(entries, earlier);
      }
      FirstsSnoc(entries, earlier, at);
    }
  }

  /** No earlier entry has the same element. */
  ghost predicate FirstOfItsElement(entries: seq<Entry>, p: nat)
    requires p < |entries|
  {
    entries[p].backendId.Some? ==> forall j :: 0 <= j < p ==> entries[j].backendId != entries[p].backendId
  }

  lemma NotRepeated(before: seq<Entry>, e: Entry)
    requires !Repeats(FirstOccurrences(before), e)
    ensures forall j :: 0 <= j < |before| && before[j].backendId.Some? ==> before[j].backendId != e.backendId
    ensures FirstOfItsElement(before + [e], |before|)
  {
    hide FirstOccurrences;
    FirstOccurrencesMean(before);
    forall j | 0 <= j < |before| && before[j].backendId.Some? ensures before[j].backendId != e.backendId {
      assert before[j] in before;
    }
  }

  ghost predicate CoversFirsts(at: seq<nat>, entries: seq<Entry>) {
    forall p :: 0 <= p < |entries| && FirstOfItsElement(entries, p) ==> p in at
  }

  lemma NoFirsts()
    ensures CoversFirsts([], [])
  {
  }

  lemma FirstsSnoc(entries: seq<Entry>, earlier: seq<nat>, at: seq<nat>)
    requires entries != [] && CoversFirsts(earlier, Init(entries)) && earlier <= at
    requires |entries| - 1 in at || !FirstOfItsElement(entries, |entries| - 1)
    ensures CoversFirsts(at, entries)
  {
    forall p | 0 <= p < |entries| && FirstOfItsElement(entries, p) ensures p in at {
      if p < |entries| - 1 {
        assert FirstOfItsElement(Init(entries), p);
        assert p in earlier;
      }
    }
  }

  lemma RepeatsEarlier(entries: seq<Entry>, at: seq<nat>)
    requires entries != [] && |at| == |FirstOccurrences(Init(entries))| && Increasing(at, |entries| - 1)
    requires forall k :: 0 <= k < |at| ==> FirstOccurrences(Init(entries))[k] == Init(entries)[at[k]]
    requires Repeats(FirstOccurrences(Init(entries)), Last(entries))
    ensures !FirstOfItsElement(entries, |entries| - 1)
  {
    var kept := FirstOccurrences(Init(entries));
    var i :| 0 <= i < |kept| && kept[i].backendId == Last(entries).backendId;
    assert entries[at[i]].backendId == Last(entries).backendId;
  }

  /** These are the positions of the nodes that some entries are made of. */
  ghost predicate Located(at: seq<nat>, picked: seq<Entry>, nodes: seq<Node>) {
    Increasing(at, |nodes|) && |at| == |picked| && forall k :: 0 <= k < |at| ==> picked[k] == EntryOf(nodes[at[k]])
  }

  lemma LocatedSnoc(at: seq<nat>, picked: seq<Entry>, before: seq<Node>, n: Node)
    requires Located(at, picked, before)
    ensures Located(at, picked, before + [n]) && Located(at + [|before|], picked + [EntryOf(n)], before + [n])
  {
    hide EntryOf;
    forall k | 0 <= k < |at| ensures (before + [n])[at[k]] == before[at[k]] {
    }
  }

  /** Exactly the positions of the nodes that satisfy `p`. */
  ghost predicate Covers(at: seq<nat>, nodes: seq<Node>, p: Node -> bool) {
    forall i :: 0 <= i < |nodes| ==> (i in at <==> p(nodes[i]))
  }

  lemma NothingCovered(p: Node -> bool)
    ensures Covers([], [], p)
  {
  }

  lemma CoversSnoc(at: seq<nat>, before: seq<Node>, n: Node, p: Node -> bool)
    requires Covers(at, before, p) && forall k :: 0 <= k < |at| ==> at[k] < |before|
    ensures Covers(if p(n) then at + [|before|] else at, before + [n], p)
  {
    var nodes, after := before + [n], if p(n) then at + [|before|] else at;
    forall i | 0 <= i < |nodes| ensures i in after <==> p(nodes[i]) {
      if i < |before| {
        assert nodes[i] == before[i];
      }
    }
  }

  lemma {:induction false} PrimariesAt(nodes: seq<Node>) returns (at: seq<nat>)
    ensures Located(at, Primaries(nodes), nodes)
    ensures Covers(at, nodes, Primary)
  {
    hide Primary, EntryOf, Covers;
    at := [];
    if nodes == [] {
      NothingCovered(Primary);
    } else {
      var before, n := Init(nodes), Last(nodes);
      at := PrimariesAt(before);
      LocatedSnoc(at, Primaries(before), before, n);
      CoversSnoc(at, before, n, Primary);
      assert nodes == before + [n] && Primaries(before) + [] == Primaries(before);
      at := if Primary(n) then at + [|before|] else at;
    }
  }

  lemma {:induction false} FallbacksAt(nodes: seq<Node>) returns (at: seq<nat>)
    ensures Located(at, Fallbacks(nodes), nodes)
    ensures Covers(at, nodes, Fallback)
  {
    hide Fallback, EntryOf, Covers;
    at := [];
    if nodes == [] {
      NothingCovered(Fallback);
    } else {
      var before, n := Init(nodes), Last(nodes);
      at := FallbacksAt(before);
      LocatedSnoc(at, Fallbacks(before), before, n);
      CoversSnoc(at, before, n, Fallback);
      assert nodes == before + [n] && Fallbacks(before) + [] == Fallbacks(before);
      at := if Fallback(n) then at + [|before|] else at;
    }
  }

  /** The listed nodes stand in the tree in the order in which they are listed. */
  lemma ListedInOrder(s: State, nodes: seq<Node>) returns (at: seq<nat>)
    requires Valid(s)
    ensures var result := Snapshot(s, nodes).result;
            && Increasing(at, |nodes|) && |at| == |result|
            && forall k :: 0 <= k < |at| ==> result[k] == NodeOf(EntryOf(nodes[at[k]]), result[k].ref)
  {
    hide Snapshot, Valid, EntryOf, NodeOf, FirstOccurrences, Primaries, Fallbacks, Covers, FirstOfItsElement;
    SnapshotLists(s, nodes);
    var entries := Chosen(nodes);
    var chosen := PrimariesAt(nodes);
    if Primaries(nodes) == [] {
      chosen := FallbacksAt(nodes);
    }
    var first := FirstAt(entries);
    var kept := Cut(FirstOccurrences(entries));
    assert forall k :: 0 <= k < |kept| ==> kept[k] == entries[first[k]];
    at := seq(|kept|, k requires 0 <= k < |kept| => chosen[first[k]]);
  }

  function Run(s: State, trees: seq<seq<Node>>): State {
    if trees == [] then s else Snapshot(Run(s, Init(trees)), Last(trees)).state
  }

  lemma {:induction false} RunLater(s: State, trees: seq<seq<Node>>)
    requires Valid(s)
    ensures Valid(Run(s, trees)) && Later(s, Run(s, trees))
  {
    hide Valid, Later;
    if trees == [] {
      LaterSelf(s);
    } else {
      RunLater(s, Init(trees));
      AllCome(Run(s, Init(trees)), Chosen(Last(trees)));
      LaterTrans(s, Run(s, Init(trees)), Run(s, trees));
    }
  }

  lemma LaterSelf(s: State)
    ensures Later(s, s)
  {
  }

  /** Over any number of snapshots an element keeps its reference, and different elements never share one. */
  lemma RefsAreStable(before: seq<seq<Node>>, after: seq<seq<Node>>, a: int, b: int)
    requires a in Run(INITIAL, before).known
    ensures var s := Run(INITIAL, before); var t := Run(s, after);
            && a in t.known && t.known[a] == s.known[a]
            && (b in t.known && b != a ==> t.known[b] != t.known[a])
            && (b in t.known && b !in s.known ==> !Issued(t.known[b], s.counter))
  {
    RunLater(INITIAL, before);
    RunLater(Run(INITIAL, before), after);
  }

  lemma OldRefSafe(s: State, t: State, ref: string)
    requires Valid(t) && Later(s, t) && Issued(ref, s.counter)
    ensures ref in t.refs ==> t.refs[ref] in s.known && s.known[t.refs[ref]] == ref
  {
    hide Issued;
    if ref in t.refs {
      var id := t.refs[ref];
      assert id in t.known;
      assert t.known[id] == ref;
      assert Issued(t.known[id], s.counter);
      assert id in s.known;
    }
  }

  /** A reference never comes to mean another element: if an issued reference resolves later, it was this element's all along. */
  lemma OldRefsAreSafe(before: seq<seq<Node>>, after: seq<seq<Node>>, ref: string)
    requires Issued(ref, Run(INITIAL, before).counter)
    ensures var s := Run(INITIAL, before); var t := Run(s, after);
            ref in t.refs ==> t.refs[ref] in s.known && s.known[t.refs[ref]] == ref
  {
    RunLater(INITIAL, before);
    RunLater(Run(INITIAL, before), after);
    OldRefSafe(Run(INITIAL, before), Run(Run(INITIAL, before), after), ref);
  }

  /** The element an action on a reference goes to; element 0 counts as missing. */
  function Resolve(s: State, ref: string): Option<int> {
    if ref in s.refs && s.refs[ref] != 0 then Some(s.refs[ref]) else None
  }

  /** Every listed element can be acted on by its reference, except element 0. */
  lemma ListedResolves(s: State, nodes: seq<Node>, i: nat)
    requires Valid(s) && i < |Snapshot(s, nodes).result|
    ensures var kept, t := Cut(FirstOccurrences(Chosen(nodes))), Snapshot(s, nodes);
            i < |kept| && (Resolve(t.state, t.result[i].ref) ==
                             if kept[i].backendId == Some(0) then None else kept[i].backendId)
  {
    AllCome(s, Chosen(nodes));
    var kept, t := Cut(FirstOccurrences(Chosen(nodes))), Snapshot(s, nodes);
    assert RefMatches(t.state, kept[i], t.result[i].ref);
  }

  /** A page that is one such element: it is listed, and its reference leads nowhere. */
  lemma ElementZeroIsListed(s: State)
    requires Valid(s)
    ensures var t := Snapshot(s, [Node(None, Some("x"), Text("x"), None, Some(0), [])]);
            |t.result| == 1 && t.result[0].name == "x" && Resolve(t.state, t.result[0].ref) == None
  {
    hide Snapshot, Valid, Resolve;
    var node := Node(None, Some("x"), Text("x"), None, Some(0), []);
    var nodes := [node];
    TrimTrimmed("x");
    assert Primary(node) && Init(nodes) == [] && Primaries(nodes) == [EntryOf(node)];
    assert FirstOccurrences([]) == [] && Init([EntryOf(node)]) == [];
    assert FirstOccurrences([EntryOf(node)]) == [EntryOf(node)];
    SnapshotLists(s, nodes);
    ListedResolves(s, nodes, 0);
  }

  // ---------------------------------------------------------------- the loop

  lemma FullStays(t: Taking, e: Entry)
    requires |t.result| >= MAX_NODES
    ensures Push(t, e) == t
  {
  }

  lemma {:induction false} FullIgnores(t: Taking, nodes: seq<Node>, i: nat)
    requires i <= |nodes| && |PushAll(t, Primaries(nodes[..i])).result| >= MAX_NODES
    ensures PushAll(t, Primaries(nodes)) == PushAll(t, Primaries(nodes[..i]))
  {
    hide Push, Primary, EntryOf;
    if i < |nodes| {
      assert Init(nodes)[..i] == nodes[..i];
      FullIgnores(t, Init(nodes), i);
      var ps := Primaries(Init(nodes));
      if Primary(Last(nodes)) {
        assert Init(ps + [EntryOf(Last(nodes))]) == ps;
        FullStays(PushAll(t, ps), EntryOf(Last(nodes)));
      } else {
        assert ps + [] == ps;
      }
    } else {
      assert nodes[..i] == nodes;
    }
  }

  lemma {:induction false} FullIgnoresRest(t: Taking, entries: seq<Entry>, k: nat)
    requires k <= |entries|
    requires k == |entries| || |PushAll(t, entries[..k]).result| >= MAX_NODES
    ensures PushAll(t, entries) == PushAll(t, entries[..k])
  {
    hide Push;
    if k < |entries| {
      assert Init(entries)[..k] == entries[..k];
      FullIgnoresRest(t, Init(entries), k);
      FullStays(PushAll(t, Init(entries)), Last(entries));
    } else {
      assert entries[..k] == entries;
    }
  }

  lemma {:induction false} PushedSome(t: Taking, entries: seq<Entry>)
    requires t.seen == {}
    ensures entries != [] ==> PushAll(t, entries).result != []
    ensures t.result != [] ==> PushAll(t, entries).result != []
  {
    hide Allocate;
    if entries != [] {
      PushedSome(t, Init(entries));
    }
  }

  lemma PrimaryNext(t: Taking, nodes: seq<Node>, node: Node)
    requires Primary(node)
    ensures PushAll(t, Primaries(nodes + [node])) == Push(PushAll(t, Primaries(nodes)), EntryOf(node))
    ensures Fallbacks(nodes + [node]) == Fallbacks(nodes)
  {
    hide Push, EntryOf, Role, FlagsOf, HasValue;
    assert Init(nodes + [node]) == nodes;
    assert Init(Primaries(nodes) + [EntryOf(node)]) == Primaries(nodes);
  }

  lemma OtherNext(nodes: seq<Node>, node: Node)
    requires !Primary(node)
    ensures Primaries(nodes + [node]) == Primaries(nodes)
    ensures Fallbacks(nodes + [node]) == Fallbacks(nodes) + if Fallback(node) then [EntryOf(node)] else []
  {
    hide EntryOf, Primary, Fallback;
    assert Init(nodes + [node]) == nodes;
  }

  class BrowserCdp {
    var refMap: map<string, int>
    var refDetails: map<string, Detail>
    var backendNodeRefMap: map<int, string>
    var nextRefCounter: nat

    function Contents(): State
      reads this
    {
      State(refMap, refDetails, backendNodeRefMap, nextRefCounter)
    }

    constructor ()
      ensures Contents() == INITIAL
    {
      refMap, refDetails, backendNodeRefMap, nextRefCounter := map[], map[], map[], 0;
    }

    method AllocateRef(id: Option<int>) returns (ref: string)
      modifies this`nextRefCounter, this`backendNodeRefMap
      ensures (Contents(), ref) == Allocate(old(Contents()), id)
    {
      if id.Some? {
        if id.value in backendNodeRefMap && backendNodeRefMap[id.value] != "" {
          return backendNodeRefMap[id.value];
        }
      }
      nextRefCounter := nextRefCounter + 1;
      ref := RefName(nextRefCounter);
      if id.Some? {
        backendNodeRefMap := backendNodeRefMap[id.value := ref];
      }
    }

    method PushAccessNode(result: seq<AccessNode>, seen: set<int>, e: Entry)
      returns (result': seq<AccessNode>, seen': set<int>, room: bool)
      modifies this
      ensures Taking(Contents(), result', seen') == Push(Taking(old(Contents()), result, seen), e)
      ensures room <==> |result| < MAX_NODES
      ensures !room ==> result' == result
    {
      hide Allocate;
      if |result| >= MAX_NODES {
        return result, seen, false;
      }
      seen' := seen;
      if e.backendId.Some? {
        if e.backendId.value in seen {
          return result, seen, true;
        }
        seen' := seen' + {e.backendId.value};
      }
      var ref := AllocateRef(e.backendId);
      if e.backendId.Some? {
        refMap := refMap[ref := e.backendId.value];
      }
      refDetails := refDetails[ref := Detail(e.role, e.name)];
      return result + [NodeOf(e, ref)], seen', true;
    }

    method ReadFlags(props: seq<Prop>) returns (f: Flags)
      ensures f == FlagsOf(props)
    {
      f := Flags(false, false, false, false);
      for i := 0 to |props|
        invariant f == FlagsOf(props[..i])
      {
        assert Init(props[..i + 1]) == props[..i];
        var p := props[i];
        if p.name == "focused" && p.value == True { f := f.(focused := true); }
        if p.name == "checked" && p.value != FalseText { f := f.(checked := p.value == True || p.value == TrueText); }
        if p.name == "disabled" && p.value == True { f := f.(disabled := true); }
        if p.name == "focusable" && p.value == True { f := f.(focusable := true); }
      }
      assert props[..|props|] == props;
    }

    /** One node of the tree: what would be reported, and whether it is primary or at least eligible as a fallback. */
    method Describe(node: Node) returns (e: Entry, keep: bool, eligible: bool)
      ensures e == EntryOf(node) && keep == Primary(node) && (!keep ==> eligible == Fallback(node))
    {
      hide FlagsOf, Role, Normalized;
      var role, name := Role(node), Normalized(node.name);
      var f := ReadFlags(node.props);
      e := Entry(node.backendId, role, name, ValueOf(node), DescriptionOf(node), f.focused, f.checked, f.disabled);
      var isInteractive := role in INTERACTIVE_ROLES;
      var isContent := role in CONTENT_ROLES && name != "";
      var hasPrimarySignal := isInteractive || isContent || HasValue(node);
      var isGenericWithoutName := (role == "" || role == "generic" || role == "none") && name == "";
      keep := hasPrimarySignal && !isGenericWithoutName;
      eligible := && node.backendId.Some? && node.backendId.value != 0
                  && role !in FALLBACK_EXCLUDED_ROLES
                  && (name != "" || HasValue(node) || f.focusable || f.focused);
    }

    /** Take a snapshot of the page whose accessibility tree is `nodes`. */
    method GetAccessibilitySnapshot(nodes: seq<Node>) returns (result: seq<AccessNode>)
      modifies this
      ensures result == Snapshot(old(Contents()), nodes).result
      ensures Contents() == Snapshot(old(Contents()), nodes).state
    {
      hide Push, Primary, EntryOf, Fallback, FlagsOf;
      ghost var start := Cleared(Contents());
      refMap, refDetails := map[], map[];
      result := [];
      var seen: set<int> := {};
      var candidates: seq<Entry> := [];
      var i := 0;
      while i < |nodes|
        invariant 0 <= i <= |nodes|
        invariant Taking(Contents(), result, seen) == PushAll(start, Primaries(nodes[..i]))
        invariant candidates == Fallbacks(nodes[..i])
      {
        assert Init(nodes[..i + 1]) == nodes[..i];
        var node := nodes[i];
        assert nodes[..i + 1] == nodes[..i] + [node];
        var e, keep, eligible := Describe(node);
        if keep {
          PrimaryNext(start, nodes[..i], node);
          var room;
          result, seen, room := PushAccessNode(result, seen, e);
        } else {
          OtherNext(nodes[..i], node);
          if eligible {
            candidates := candidates + [e];
          }
        }
        i := i + 1;
        if keep && |result| >= MAX_NODES {
          break;
        }
      }
      if i < |nodes| {
        FullIgnores(start, nodes, i);
      } else {
        assert nodes[..i] == nodes;
      }
      PushedSome(start, Primaries(nodes));
      if result == [] && candidates != [] {
        var k, room := 0, true;
        while k < |candidates| && room
          invariant 0 <= k <= |candidates|
          invariant Taking(Contents(), result, seen) == PushAll(start, candidates[..k])
          invariant !room ==> |result| >= MAX_NODES
        {
          assert Init(candidates[..k + 1]) == candidates[..k];
          result, seen, room := PushAccessNode(result, seen, candidates[k]);
          k := k + 1;
        }
        FullIgnoresRest(start, candidates, k);
      }
    }
  }
}
