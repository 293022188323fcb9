/** What an accessibility snapshot lists and what it says of each element, in the words of the page's tree. */
module ElementLaws {
  import opened Options
  import opened Text
  import opened ElementRefs

  // ---------------------------------------------------------------- single nodes

  /** The roles of things to act on. */
  predicate IsInteractive(role: string) {
    role in {"button", "link", "textbox", "searchbox", "combobox", "checkbox", "radio", "switch", "slider", "spinbutton", "tab",
             "menuitem", "menuitemcheckbox", "menuitemradio", "option", "treeitem", "row", "cell", "columnheader", "rowheader",
             "gridcell"}
  }

  /** The roles of things to read. */
  predicate IsContent(role: string) {
    role in {"heading", "img", "table", "list", "listitem", "paragraph", "blockquote", "article", "main", "navigation",
             "complementary", "contentinfo", "banner", "form", "region", "alert", "dialog", "alertdialog", "status", "progressbar",
             "meter", "timer"}
  }

  predicate Filled(v: RawValue) {
    !v.Undefined? && !(v.Text? && v.text == "")
  }

  predicate Says(props: seq<Prop>, name: string) {
    exists i :: 0 <= i < |props| && props[i] == Prop(name, True)
  }

  /** The last `checked` property that is not the text `false` says so. */
  predicate SaysChecked(props: seq<Prop>) {
    exists i :: 0 <= i < |props| && props[i].name == "checked" && (props[i].value == True || props[i].value == TrueText)
                && forall j :: i < j < |props| && props[j].name == "checked" ==> props[j].value != Other
  }

  lemma {:induction false} FlagsMean(props: seq<Prop>)
    ensures var f := FlagsOf(props);
      && (f.focused <==> Says(props, "focused")) && (f.disabled <==> Says(props, "disabled"))
      && (f.focusable <==> Says(props, "focusable")) && (f.checked <==> SaysChecked(props))
  {
    if props != [] {
      var before, p := Init(props), Last(props);
      FlagsMean(before);
      SaysSnoc(before, p, "focused");
      SaysSnoc(before, p, "disabled");
      SaysSnoc(before, p, "focusable");
      CheckedSnoc(before, p);
      assert props == before + [p];
    }
  }

  lemma SaysSnoc(before: seq<Prop>, p: Prop, name: string)
    ensures Says(before + [p], name) <==> Says(before, name) || p == Prop(name, True)
  {
    var props := before + [p];
    assert props[|before|] == p;
    if i :| 0 <= i < |before| && before[i] == Prop(name, True) {
      assert props[i] == Prop(name, True);
    }
  }

  lemma CheckedSnoc(before: seq<Prop>, p: Prop)
    ensures SaysChecked(before + [p]) <==>
      if p.name == "checked" && (p.value == True || p.value == TrueText) then true
      else if p.name == "checked" && p.value == Other then false
      else SaysChecked(before)
  {
    var props, n := before + [p], |before|;
    assert props[n] == p && forall i :: 0 <= i < n ==> props[i] == before[i];
    if SaysChecked(before) && !(p.name == "checked" && p.value == Other) {
      var i :| 0 <= i < n && before[i].name == "checked" && (before[i].value == True || before[i].value == TrueText)
               && forall j :: i < j < n && before[j].name == "checked" ==> before[j].value != Other;
      assert props[i].name == "checked";
    }
  }

  /** A node that a snapshot is made for. */
  predicate Worthy(node: Node) {
    var role, name := Lower(Trim(node.role.GetOr(""))), Trim(node.name.GetOr(""));
    && (IsInteractive(role) || (IsContent(role) && name != "") || Filled(node.value))
    && (name != "" || role !in {"", "generic", "none"})
  }

  /** A node that is better than nothing. */
  predicate LastResort(node: Node) {
    var role, name := Lower(Trim(node.role.GetOr(""))), Trim(node.name.GetOr(""));
    && !Worthy(node) && node.backendId.Some? && node.backendId.value != 0
    && role !in {"none", "generic", "rootwebarea", "webarea"}
    && (name != "" || Filled(node.value) || Says(node.props, "focusable") || Says(node.props, "focused"))
  }

  /** What the snapshot says of a node. */
  predicate Describes(node: Node, a: AccessNode) {
    && a.role == Lower(Trim(node.role.GetOr(""))) && a.name == Trim(node.name.GetOr(""))
    && a.value == (if Filled(node.value) then Some(node.value.text) else None)
    && a.description == (if Trim(node.description.GetOr("")) == "" then None else Some(Trim(node.description.GetOr(""))))
    && (a.focused <==> Says(node.props, "focused")) && (a.checked <==> SaysChecked(node.props))
    && (a.disabled <==> Says(node.props, "disabled"))
  }

  lemma InteractiveAre(role: string)
    ensures role in INTERACTIVE_ROLES <==> IsInteractive(role)
  {
  }

  lemma ContentAre(role: string)
    ensures role in CONTENT_ROLES <==> IsContent(role)
  {
  }

  lemma PrimaryMeans(node: Node)
    ensures Primary(node) <==> Worthy(node)
  {
    hide IsInteractive, IsContent, Lower, Trim;
    InteractiveAre(Role(node));
    ContentAre(Role(node));
  }

  lemma FallbackMeans(node: Node)
    ensures Fallback(node) <==> LastResort(node)
  {
    hide Lower, Trim, Primary, Worthy, FlagsOf, Says;
    PrimaryMeans(node);
    FlagsMean(node.props);
  }

  lemma EntryMeans(node: Node, ref: string)
    ensures Describes(node, NodeOf(EntryOf(node), ref))
  {
    hide Lower, Trim, FlagsOf, Says, SaysChecked;
    FlagsMean(node.props);
  }

  /** Roles are read in lower case: of A to Z, the letter of the same place in a to z; any other character as it is. */
  lemma {:induction false} LowerMeans(s: string, i: nat)
    requires i < |s|
    ensures |Lower(s)| == |s|
    ensures forall k :: 0 <= k < 26 && s[i] == "ABCDEFGHIJKLMNOPQRSTUVWXYZ"[k] ==> Lower(s)[i] == "abcdefghijklmnopqrstuvwxyz"[k]
    ensures s[i] !in "ABCDEFGHIJKLMNOPQRSTUVWXYZ" ==> Lower(s)[i] == s[i]
  {
    LowerLength(s);
    if i > 0 {
      LowerMeans(s[1..], i - 1);
    } else {
      LowerLetter(s[0]);
    }
  }

  lemma Alphabets(k: nat)
    requires k < 26
    ensures "ABCDEFGHIJKLMNOPQRSTUVWXYZ"[k] as int == 'A' as int + k
    ensures "abcdefghijklmnopqrstuvwxyz"[k] as int == 'a' as int + k
  {
  }

  lemma LowerLetter(c: char)
    ensures forall k :: 0 <= k < 26 && c == "ABCDEFGHIJKLMNOPQRSTUVWXYZ"[k] ==> LowerChar(c) == "abcdefghijklmnopqrstuvwxyz"[k]
    ensures c !in "ABCDEFGHIJKLMNOPQRSTUVWXYZ" ==> LowerChar(c) == c
  {
    var upper, lower := "ABCDEFGHIJKLMNOPQRSTUVWXYZ", "abcdefghijklmnopqrstuvwxyz";
    forall k | 0 <= k < 26 ensures upper[k] as int == 'A' as int + k && lower[k] as int == 'a' as int + k {
      Alphabets(k);
    }
    if 'A' <= c <= 'Z' {
      Alphabets(c as int - 'A' as int);
      assert upper[c as int - 'A' as int] == c;
    }
  }

  lemma {:induction false} LowerLength(s: string)
    ensures |Lower(s)| == |s|
  {
    if s != "" {
      LowerLength(s[1..]);
    }
  }

  // ---------------------------------------------------------------- which nodes

  /** The tree has a worthy node, and this is one; or it has none, and this is a last resort. */
  ghost predicate Eligible(nodes: seq<Node>, i: nat)
    requires i < |nodes|
  {
    if exists k :: 0 <= k < |nodes| && Worthy(nodes[k]) then Worthy(nodes[i]) else LastResort(nodes[i])
  }

  /** Eligible, and the first eligible node of its element. */
  ghost predicate FirstEligible(nodes: seq<Node>, i: nat)
    requires i < |nodes|
  {
    Eligible(nodes, i) &&
    forall j :: 0 <= j < i && Eligible(nodes, j) && nodes[j].backendId.Some? ==> nodes[j].backendId != nodes[i].backendId
  }

  lemma {:induction false} NonePrimary(nodes: seq<Node>)
    ensures Primaries(nodes) == [] <==> forall k :: 0 <= k < |nodes| ==> !Primary(nodes[k])
  {
    hide Primary, EntryOf;
    if nodes != [] {
      NonePrimary(Init(nodes));
      assert nodes == Init(nodes) + [Last(nodes)];
    }
  }

  /** The positions of the eligible nodes. */
  lemma EligibleAt(nodes: seq<Node>) returns (at: seq<nat>)
    ensures Located(at, Chosen(nodes), nodes)
    ensures forall i :: 0 <= i < |nodes| ==> (i in at <==> Eligible(nodes, i))
  {
    hide Worthy, LastResort, Primary, Fallback, EntryOf;
    forall i | 0 <= i < |nodes|
      ensures (Primary(nodes[i]) <==> Worthy(nodes[i])) && (Fallback(nodes[i]) <==> LastResort(nodes[i]))
    {
      PrimaryMeans(nodes[i]);
      FallbackMeans(nodes[i]);
    }
    NonePrimary(nodes);
    if Primaries(nodes) == [] {
      at := FallbacksAt(nodes);
    } else {
      at := PrimariesAt(nodes);
    }
  }

  /**
   * A snapshot lists, in tree order, the first 500 of the nodes that are eligible and the first of their elements, and
   * says of each what its node says.
   */
  lemma SnapshotMeans(s: State, nodes: seq<Node>) returns (at: seq<nat>)
    requires Valid(s)
    ensures var result := Snapshot(s, nodes).result;
      && Increasing(at, |nodes|) && |at| == |result| <= 500
      && (forall k :: 0 <= k < |at| ==> FirstEligible(nodes, at[k]) && Describes(nodes[at[k]], result[k]))
      && (forall i :: 0 <= i < |nodes| && FirstEligible(nodes, i) ==> i in at || (|at| == 500 && forall k :: 0 <= k < |at| ==> at[k] < i))
  {
    hide Snapshot, Valid, EntryOf, NodeOf, FirstOccurrences, Primaries, Fallbacks, Eligible, Describes, FirstEligible, Covers;
    SnapshotLists(s, nodes);
    var entries, result := Chosen(nodes), Snapshot(s, nodes).result;
    var chosen := EligibleAt(nodes);
    var first := FirstAt(entries);
    var kept := Cut(FirstOccurrences(entries));
    at := seq(|kept|, k requires 0 <= k < |kept| => chosen[first[k]]);
    forall k | 0 <= k < |at| ensures FirstEligible(nodes, at[k]) && Describes(nodes[at[k]], result[k]) {
      FirstIs(nodes, chosen, first, k);
      EntryMeans(nodes[at[k]], result[k].ref);
      assert kept[k] == entries[first[k]];
    }
    forall i | 0 <= i < |nodes| && FirstEligible(nodes, i)
      ensures i in at || (|at| == 500 && forall k :: 0 <= k < |at| ==> at[k] < i)
    {
      var p := FirstPosition(nodes, chosen, i);
      var k :| 0 <= k < |first| && first[k] == p;
      if k < |at| {
        assert at[k] == i;
      }
    }
  }

  lemma FirstIs(nodes: seq<Node>, chosen: seq<nat>, first: seq<nat>, k: nat)
    requires Located(chosen, Chosen(nodes), nodes)
    requires forall i :: 0 <= i < |nodes| ==> (i in chosen <==> Eligible(nodes, i))
    requires k < |first| && first[k] < |Chosen(nodes)|
    requires forall j :: 0 <= j < first[k] && Chosen(nodes)[j].backendId.Some? ==> Chosen(nodes)[j].backendId != Chosen(nodes)[first[k]].backendId
    ensures FirstEligible(nodes, chosen[first[k]])
  {
    hide Eligible, Chosen;
    var entries, p := Chosen(nodes), first[k];
    var i := chosen[p];
    assert i in chosen && entries[p].backendId == nodes[i].backendId;
    forall j | 0 <= j < i && Eligible(nodes, j) && nodes[j].backendId.Some? ensures nodes[j].backendId != nodes[i].backendId {
      var q :| 0 <= q < |chosen| && chosen[q] == j;
      assert entries[q].backendId == nodes[j].backendId;
    }
  }

  lemma FirstPosition(nodes: seq<Node>, chosen: seq<nat>, i: nat) returns (p: nat)
    requires Located(chosen, Chosen(nodes), nodes)
    requires forall i :: 0 <= i < |nodes| ==> (i in chosen <==> Eligible(nodes, i))
    requires i < |nodes| && FirstEligible(nodes, i)
    ensures p < |chosen| && chosen[p] == i && FirstOfItsElement(Chosen(nodes), p)
  {
    hide Eligible, Chosen;
    p :| 0 <= p < |chosen| && chosen[p] == i;
    var entries := Chosen(nodes);
    assert entries[p].backendId == nodes[i].backendId;
    if entries[p].backendId.Some? {
      forall j | 0 <= j < p ensures entries[j].backendId != entries[p].backendId {
        assert chosen[j] in chosen && entries[j].backendId == nodes[chosen[j]].backendId;
      }
    }
  }
}
