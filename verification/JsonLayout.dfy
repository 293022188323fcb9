/** JSON texts with white space between their tokens. */
module JsonLayout {
  import opened Options
  import opened Json

  /** A value as it is laid out in a text: white space may stand before and after every token. */
  datatype Laid =
    | Compact(value: Json)
    | List(items: seq<Item>, blank: string)
    | Record(members: seq<Member>, blank: string)

  datatype Item = Item(before: string, value: Laid, after: string)

  datatype Member = Member(beforeKey: string, key: string, beforeColon: string, item: Item)

  predicate Blank(s: string) {
    forall i :: 0 <= i < |s| ==> s[i] == ' ' || s[i] == '\t' || s[i] == '\n' || s[i] == '\r'
  }

  function Text(l: Laid): string
    decreases l
  {
    match l
    case Compact(value) => Print(value)
    case List(items, blank) => ['['] + if items == [] then blank + "]" else ItemsText(items)
    case Record(members, blank) => ['{'] + if members == [] then blank + "}" else MembersText(members)
  }

  function ItemText(item: Item): string
    decreases item, 0
  {
    item.before + (Text(item.value) + item.after)
  }

  function ItemsText(items: seq<Item>): string
    requires items != []
    decreases items
  {
    ItemText(items[0]) + if |items| == 1 then "]" else [','] + ItemsText(items[1..])
  }

  function MembersText(members: seq<Member>): string
    requires members != []
    decreases members
  {
    var m := members[0];
    m.beforeKey + (Quote(m.key) + (m.beforeColon + ([':'] + ItemText(m.item))))
    + if |members| == 1 then "}" else [','] + MembersText(members[1..])
  }

  function Value(l: Laid): Json
    decreases l
  {
    match l
    case Compact(value) => value
    case List(items, _) => Arr(Values(items))
    case Record(members, _) => Obj(Fielded(members))
  }

  function Values(items: seq<Item>): (r: seq<Json>)
    ensures |r| == |items|
    decreases items
  {
    if items == [] then [] else [Value(items[0].value)] + Values(items[1..])
  }

  function Fielded(members: seq<Member>): (r: Fields)
    ensures |r| == |members|
    decreases members
  {
    if members == [] then [] else [Field(members[0].key, Value(members[0].item.value))] + Fielded(members[1..])
  }

  /** Only white space stands between the tokens. */
  predicate Spaced(l: Laid)
    decreases l
  {
    match l
    case Compact(_) => true
    case List(items, blank) => Blank(blank) && forall i :: 0 <= i < |items| ==> SpacedItem(items[i])
    case Record(members, blank) => Blank(blank) && forall i :: 0 <= i < |members| ==> SpacedMember(members[i])
  }

  predicate SpacedItem(item: Item)
    decreases item, 0
  {
    Blank(item.before) && Blank(item.after) && Spaced(item.value)
  }

  predicate SpacedMember(m: Member)
    decreases m, 1
  {
    Blank(m.beforeKey) && Blank(m.beforeColon) && SpacedItem(m.item)
  }

  // ----- reading over white space -----

  lemma {:induction false} SkipBlank(blank: string, s: string)
    requires Blank(blank)
    ensures SkipSpace(blank + s) == SkipSpace(s)
  {
    if blank == "" {
      assert blank + s == s;
    } else {
      assert (blank + s)[1..] == blank[1..] + s;
      SkipBlank(blank[1..], s);
    }
  }

  lemma {:induction false} SkipTwice(s: string)
    ensures SkipSpace(SkipSpace(s)) == SkipSpace(s)
  {
    if s != "" && IsJsonSpace(s[0]) {
      SkipTwice(s[1..]);
    }
  }

  lemma ParseBlank(blank: string, s: string)
    requires Blank(blank)
    ensures ParseValue(blank + s) == ParseValue(s)
  {
    hide ParseText, ParseArray, ParseObject, ParseScalar;
    SkipBlank(blank, s);
  }

  /** What follows a value, behind white space, is not read as part of it. */
  lemma EndsBlank(blank: string, s: string)
    requires Blank(blank) && s != "" && !IsDigit(s[0])
    ensures Ends(blank + s)
  {
    if blank == "" {
      assert blank + s == s;
    } else {
      assert (blank + s)[0] == blank[0];
    }
  }

  lemma {:induction false} TextFirst(l: Laid)
    ensures Text(l) != "" && !IsJsonSpace(Text(l)[0]) && Text(l)[0] != ']'
  {
    if l.Compact? {
      PrintFirst(l.value);
    }
  }

  lemma SkipNone(s: string)
    requires s != "" && !IsJsonSpace(s[0])
    ensures SkipSpace(s) == s
  {
  }

  // ----- one value, one item, one member -----

  lemma {:induction false} ParseLaid(l: Laid, rest: string)
    requires Spaced(l) && WellFormed(Value(l)) && Ends(rest)
    ensures ParseValue(Text(l) + rest) == Got(Value(l), rest)
    decreases l, 2
  {
    match l
    case Compact(value) => ParsePrint(value, rest);
    case List(_, _) => ParseList(l, rest);
    case Record(_, _) => ParseRecord(l, rest);
  }

  lemma {:induction false} ParseList(l: Laid, rest: string)
    requires l.List? && Spaced(l) && WellFormed(Value(l)) && Ends(rest)
    ensures ParseValue(Text(l) + rest) == Got(Value(l), rest)
    decreases l, 1
  {
    hide ParseValue, ParseItems, ItemsText;
    var body := if l.items == [] then l.blank + "]" else ItemsText(l.items);
    Regroup(['['], body, rest);
    ParseFrom('[', body + rest);
    if l.items == [] {
      SkipBlank(l.blank, "]" + rest);
      Regroup(l.blank, "]", rest);
      SkipNone("]" + rest);
      assert ("]" + rest)[1..] == rest;
    } else {
      ValuesWellFormed(l.items);
      ParseLaidItems(l.items, rest);
    }
  }

  lemma {:induction false} ValuesWellFormed(items: seq<Item>)
    requires WellFormed(Arr(Values(items)))
    ensures forall i :: 0 <= i < |items| ==> WellFormed(Value(items[i].value))
  {
    hide WellFormed;
    ValuesAt(items);
    AllWell(Values(items));
  }

  lemma AllWell(values: seq<Json>)
    requires WellFormed(Arr(values))
    ensures forall i :: 0 <= i < |values| ==> WellFormed(values[i])
  {
  }

  lemma {:induction false} ValuesAt(items: seq<Item>)
    ensures forall i :: 0 <= i < |items| ==> Values(items)[i] == Value(items[i].value)
  {
    if items != [] {
      ValuesAt(items[1..]);
    }
  }

  /** An item, and what follows it. */
  lemma {:induction false} ParseItem(item: Item, more: string)
    requires SpacedItem(item) && WellFormed(Value(item.value)) && more != "" && !IsDigit(more[0])
    ensures ParseValue(ItemText(item) + more) == Got(Value(item.value), item.after + more)
    decreases item, 3
  {
    hide ParseValue, Text, Value, WellFormed;
    EndsBlank(item.after, more);
    ParseLaid(item.value, item.after + more);
    ParseBlank(item.before, Text(item.value) + (item.after + more));
    Regroup(item.before, Text(item.value) + item.after, more);
    Regroup(Text(item.value), item.after, more);
  }

  lemma ItemFirst(item: Item, more: string)
    requires SpacedItem(item)
    ensures var u := SkipSpace(ItemText(item) + more); u != "" && u[0] != ']'
  {
    hide Text;
    TextFirst(item.value);
    var body := Text(item.value) + item.after + more;
    SkipBlank(item.before, body);
    SkipNone(body);
    Regroup(item.before, Text(item.value) + item.after, more);
  }

  /** The text after an item: the closing bracket, or a comma and the other items. */
  function AfterOne(items: seq<Item>, rest: string): (more: string)
    requires items != []
    ensures more != "" && !IsDigit(more[0]) && (more[0] == ']' || more[0] == ',')
    ensures more[0] == ']' <==> |items| == 1
    ensures more[1..] == if |items| == 1 then rest else ItemsText(items[1..]) + rest
  {
    if |items| == 1 then [']'] + rest else [','] + (ItemsText(items[1..]) + rest)
  }

  lemma ItemsShape(items: seq<Item>, rest: string)
    requires items != []
    ensures ItemsText(items) + rest == ItemText(items[0]) + AfterOne(items, rest)
  {
    hide ItemText;
    var tail := if |items| == 1 then "]" else [','] + ItemsText(items[1..]);
    if |items| > 1 {
      Regroup([','], ItemsText(items[1..]), rest);
    }
    assert AfterOne(items, rest) == tail + rest;
    Regroup(ItemText(items[0]), tail, rest);
  }

  /** One item, given what it reads as and what follows it behind white space. */
  lemma ItemThen(s: string, v: Json, after: string, more: string)
    requires ParseValue(s) == Got(v, after + more) && Blank(after)
    requires more != "" && (more[0] == ']' || more[0] == ',')
    ensures ParseItems(s) ==
      if more[0] == ']' then Got([v], more[1..])
      else match ParseItems(more[1..]) { case Fail => Fail case Got(vs, rest) => Got([v] + vs, rest) }
  {
    hide ParseValue;
    SkipBlank(after, more);
    SkipNone(more);
  }

  lemma {:induction false} ParseLaidItems(items: seq<Item>, rest: string)
    requires items != [] && forall i :: 0 <= i < |items| ==> SpacedItem(items[i]) && WellFormed(Value(items[i].value))
    ensures ParseItems(ItemsText(items) + rest) == Got(Values(items), rest)
    ensures var u := SkipSpace(ItemsText(items) + rest); u != "" && u[0] != ']'
    decreases items, 0
  {
    hide ParseItems, ParseValue, ItemText, Value, WellFormed, SpacedItem;
    var more := AfterOne(items, rest);
    ItemsShape(items, rest);
    ItemFirst(items[0], more);
    ParseItem(items[0], more);
    ItemIsBlank(items[0]);
    ItemThen(ItemText(items[0]) + more, Value(items[0].value), items[0].after, more);
    if |items| > 1 {
      ParseLaidItems(items[1..], rest);
    } else {
      assert Values(items) == [Value(items[0].value)];
    }
  }

  lemma ItemIsBlank(item: Item)
    requires SpacedItem(item)
    ensures Blank(item.after)
  {
  }

  // ----- records -----

  lemma {:induction false} ParseRecord(l: Laid, rest: string)
    requires l.Record? && Spaced(l) && WellFormed(Value(l)) && Ends(rest)
    ensures ParseValue(Text(l) + rest) == Got(Value(l), rest)
    decreases l, 1
  {
    hide ParseValue, ParseFields, MembersText;
    var body := if l.members == [] then l.blank + "}" else MembersText(l.members);
    Regroup(['{'], body, rest);
    ParseFrom('{', body + rest);
    if l.members == [] {
      SkipBlank(l.blank, "}" + rest);
      Regroup(l.blank, "}", rest);
      SkipNone("}" + rest);
      assert ("}" + rest)[1..] == rest;
    } else {
      FieldsWellFormed(l.members);
      assert [] + Fielded(l.members) == Fielded(l.members);
      ParseMembers(l.members, [], rest);
    }
  }

  lemma {:induction false} FieldsWellFormed(members: seq<Member>)
    requires WellFormed(Obj(Fielded(members)))
    ensures forall i :: 0 <= i < |members| ==> WellFormed(Value(members[i].item.value))
    ensures Distinct(Fielded(members))
  {
    hide WellFormed;
    FieldedAt(members);
    AllFieldsWell(Fielded(members));
  }

  lemma AllFieldsWell(fields: Fields)
    requires WellFormed(Obj(fields))
    ensures Distinct(fields) && forall i :: 0 <= i < |fields| ==> WellFormed(fields[i].value)
  {
  }

  lemma {:induction false} FieldedAt(members: seq<Member>)
    ensures forall i :: 0 <= i < |members| ==> Fielded(members)[i] == Field(members[i].key, Value(members[i].item.value))
  {
    if members != [] {
      FieldedAt(members[1..]);
    }
  }

  function AfterMember(members: seq<Member>, rest: string): (more: string)
    requires members != []
    ensures more != "" && !IsDigit(more[0]) && (more[0] == '}' || more[0] == ',')
    ensures more[0] == '}' <==> |members| == 1
    ensures more[1..] == if |members| == 1 then rest else MembersText(members[1..]) + rest
  {
    if |members| == 1 then ['}'] + rest else [','] + (MembersText(members[1..]) + rest)
  }

  /** A member from its key's opening quote on. */
  function FromQuote(m: Member, more: string): string {
    Quote(m.key) + (m.beforeColon + ([':'] + (ItemText(m.item) + more)))
  }

  lemma MembersShape(members: seq<Member>, rest: string)
    requires members != []
    ensures MembersText(members) + rest == members[0].beforeKey + FromQuote(members[0], AfterMember(members, rest))
  {
    hide ItemText, Quote;
    var m := members[0];
    var tail := if |members| == 1 then "}" else [','] + MembersText(members[1..]);
    if |members| > 1 {
      Regroup([','], MembersText(members[1..]), rest);
    }
    var more := AfterMember(members, rest);
    assert more == tail + rest;
    RegroupMember(m.beforeKey, Quote(m.key), m.beforeColon, ItemText(m.item), tail, rest);
  }

  lemma RegroupMember(a: string, b: string, c: string, d: string, tail: string, rest: string)
    ensures a + (b + (c + ([':'] + d))) + tail + rest == a + (b + (c + ([':'] + (d + (tail + rest)))))
  {
    Regroup(a + (b + (c + ([':'] + d))), tail, rest);
    Regroup(a, b + (c + ([':'] + d)), tail + rest);
    Regroup(b, c + ([':'] + d), tail + rest);
    Regroup(c, [':'] + d, tail + rest);
    Regroup([':'], d, tail + rest);
  }

  lemma QuoteFirst(m: Member, more: string)
    ensures FromQuote(m, more)[0] == '\"'
    ensures FromQuote(m, more) == ['\"'] + (Escape(m.key) + "\"" + (m.beforeColon + ([':'] + (ItemText(m.item) + more))))
  {
    hide ItemText;
    QuoteShape(m.key, m.beforeColon + ([':'] + (ItemText(m.item) + more)));
  }

  /** One member, given what its parts read as. */
  lemma MemberThen(beforeKey: string, afterQuote: string, key: string, beforeColon: string, afterColon: string, v: Json,
                   after: string, more: string, acc: Fields)
    requires Blank(beforeKey) && Blank(beforeColon) && Blank(after) && WellFormed(Obj(acc))
    requires ParseString(afterQuote) == Got(key, beforeColon + ([':'] + afterColon))
    requires ParseValue(afterColon) == Got(v, after + more) && more != "" && (more[0] == '}' || more[0] == ',')
    ensures WellFormed(Obj(Put(acc, key, v)))
    ensures ParseFields(beforeKey + (['\"'] + afterQuote), acc)
         == if more[0] == '}' then Got(Put(acc, key, v), more[1..]) else ParseFields(more[1..], Put(acc, key, v))
  {
    hide ParseValue, ParseString, Put, WellFormed;
    PutWellFormed(acc, key, v);
    SkipBlank(beforeKey, ['\"'] + afterQuote);
    SkipNone(['\"'] + afterQuote);
    assert (['\"'] + afterQuote)[1..] == afterQuote;
    SkipBlank(beforeColon, [':'] + afterColon);
    SkipNone([':'] + afterColon);
    assert ([':'] + afterColon)[1..] == afterColon;
    SkipBlank(after, more);
    SkipNone(more);
  }

  lemma {:induction false} ParseMember(m: Member, acc: Fields, more: string)
    requires SpacedMember(m) && WellFormed(Value(m.item.value)) && WellFormed(Obj(acc)) && !Has(acc, m.key)
    requires more != "" && (more[0] == '}' || more[0] == ',')
    ensures WellFormed(Obj(acc + [Field(m.key, Value(m.item.value))]))
    ensures ParseFields(m.beforeKey + FromQuote(m, more), acc)
         == if more[0] == '}' then Got(acc + [Field(m.key, Value(m.item.value))], more[1..])
            else ParseFields(more[1..], acc + [Field(m.key, Value(m.item.value))])
    decreases m, 4
  {
    hide ParseValue, ParseString, ParseFields, Put, Has, WellFormed, ItemText, Value, Escape;
    var v := Value(m.item.value);
    var afterColon := ItemText(m.item) + more;
    ParseItem(m.item, more);
    ItemIsBlank(m.item);
    QuoteFirst(m, more);
    ParseStringOfEscape(m.key, m.beforeColon + ([':'] + afterColon));
    MemberThen(m.beforeKey, Escape(m.key) + "\"" + (m.beforeColon + ([':'] + afterColon)), m.key, m.beforeColon, afterColon, v,
               m.item.after, more, acc);
    PutFresh(acc, m.key, v);
  }

  lemma {:induction false} ParseMembers(members: seq<Member>, acc: Fields, rest: string)
    requires members != [] && WellFormed(Obj(acc)) && Distinct(acc + Fielded(members))
    requires forall i :: 0 <= i < |members| ==> SpacedMember(members[i]) && WellFormed(Value(members[i].item.value))
    ensures ParseFields(MembersText(members) + rest, acc) == Got(acc + Fielded(members), rest)
    ensures var u := SkipSpace(MembersText(members) + rest); u != "" && u[0] != '}'
    decreases members, 0
  {
    hide ParseFields, ParseValue, FromQuote, Value, WellFormed, SpacedMember, Has, Distinct;
    var m, more := members[0], AfterMember(members, rest);
    var f := Field(m.key, Value(m.item.value));
    assert Fielded(members) == [f] + Fielded(members[1..]);
    DistinctIsFresh(acc, Fielded(members));
    MembersShape(members, rest);
    ParseMember(m, acc, more);
    MemberFirst(m, more);
    if |members| > 1 {
      assert acc + [f] + Fielded(members[1..]) == acc + Fielded(members);
      ParseMembers(members[1..], acc + [f], rest);
    } else {
      assert Fielded(members[1..]) == [] && Fielded(members) == [f];
    }
  }

  lemma MemberFirst(m: Member, more: string)
    requires SpacedMember(m)
    ensures var u := SkipSpace(m.beforeKey + FromQuote(m, more)); u != "" && u[0] != '}'
  {
    hide FromQuote;
    QuoteFirst(m, more);
    SkipBlank(m.beforeKey, FromQuote(m, more));
    SkipNone(FromQuote(m, more));
  }

  // ----- main results -----

  /** White space around and between the tokens does not change what a text parses to. */
  lemma BlankIsIrrelevant(before: string, l: Laid, after: string)
    requires Blank(before) && Blank(after) && Spaced(l) && WellFormed(Value(l))
    ensures Parse(before + Text(l) + after) == Some(Value(l))
    ensures Parse(before + Text(l) + after) == Parse(Print(Value(l)))
  {
    hide ParseValue, Text, Value, Print, WellFormed;
    if after == "" {
      assert Ends(after);
    } else {
      assert !IsDigit(after[0]);
    }
    ParseLaid(l, after);
    Regroup(before, Text(l), after);
    ParseBlank(before, Text(l) + after);
    SkipBlank(after, "");
    assert after + "" == after;
    RoundTrip(Value(l));
  }

  /** No other character than white space may stand before a value, and nothing else may follow one. */
  lemma OnlyBlank(c: char, s: string, j: Json)
    requires !Blank([c]) && WellFormed(j)
    ensures c !in "\"[{-0123456789ntf" ==> Parse([c] + s) == None
    ensures !IsDigit(c) ==> Parse(Print(j) + ([c] + s)) == None
  {
    hide Print;
    assert IsJsonSpace(c) ==> Blank([c]);
    SkipNone([c] + s);
    if !IsDigit(c) {
      ParsePrint(j, [c] + s);
    }
  }
}
