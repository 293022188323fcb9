/** Capturing, deleting and re-injecting the `_intent` and `_displayName` of a tool input. */
module ToolMetadata {
  import opened Options
  import opened Text
  import opened Json

  const INTENT := "_intent"
  const DISPLAY_NAME := "_displayName"

  datatype Meta = Meta(intent: Option<string>, displayName: Option<string>)

  /** The metadata store as its users see it. */
  type Store = map<string, Meta>

  /** What the store holds under an id. */
  function MetaAt(store: Store, id: string): Option<Meta> {
    if id in store then Some(store[id]) else None
  }

  function StringField(fields: Fields, key: string): Option<string> {
    match Get(fields, key)
    case Some(Str(s)) => Some(s)
    case _ => None
  }

  /** JavaScript truth of an optional string. */
  predicate Truthy(s: Option<string>) {
    s.Some? && s.value != ""
  }

  /** Remember the metadata of a tool input, if it has any to remember. */
  function Capture(store: Store, toolId: string, fields: Fields): Store {
    var meta := Meta(StringField(fields, INTENT), StringField(fields, DISPLAY_NAME));
    if Truthy(meta.intent) || Truthy(meta.displayName) then store[toolId := meta] else store
  }

  /** Delete both metadata fields. */
  function Clean(fields: Fields): Fields {
    Remove(Remove(fields, INTENT), DISPLAY_NAME)
  }

  /** The metadata that goes back in front of a tool input. */
  function Missing(meta: Meta, fields: Fields): Fields {
    (if !Has(fields, DISPLAY_NAME) && Truthy(meta.displayName)
     then [Field(DISPLAY_NAME, Str(meta.displayName.value))] else [])
    + (if !Has(fields, INTENT) && Truthy(meta.intent)
       then [Field(INTENT, Str(meta.intent.value))] else [])
  }

  /** Put stored metadata back into a replayed tool input. */
  function Reinject(store: Store, toolId: string, fields: Fields): Fields {
    if Has(fields, INTENT) && Has(fields, DISPLAY_NAME) then fields
    else if toolId !in store then fields
    else
      var extra := Missing(store[toolId], fields);
      if extra == [] then fields else Merge(extra, fields)
  }

  /** The text of a tool input without its metadata; `None` where reading or deleting a field throws. */
  function CleanParsed(json: string): Option<string> {
    match Parse(json)
    case None => None
    case Some(Null) => None
    case Some(Obj(fields)) => Some(Print(Obj(Clean(fields))))
    case Some(j) => Some(Print(j))
  }

  /** What the JSON text of a tool input becomes once the metadata is gone, by best effort if need be. */
  function CleanText(json: string): string {
    match CleanParsed(json)
    case Some(text) => text
    case None => StripRaw(json)
  }

  function CaptureText(store: Store, toolId: string, json: string): Store {
    match Parse(json)
    case Some(Obj(fields)) => Capture(store, toolId, fields)
    case _ => store
  }

  // ----- the best-effort removal from text that does not parse -----

  function SkipText(s: string, expected: string): Option<string> {
    if StartsWith(s, expected) then Some(s[|expected|..]) else None
  }

  /** What follows the closing quote of a raw string body. */
  function SkipStringBody(s: string): (r: Option<string>)
    ensures r.Some? ==> |r.value| < |s|
  {
    if s == "" then None
    else if s[0] == '\"' then Some(s[1..])
    else if s[0] != '\\' then SkipStringBody(s[1..])
    else if |s| >= 2 && !IsLineEnd(s[1]) then SkipStringBody(s[2..])
    else None
  }

  /** What follows a `"key": "value",` at the front of `s`. */
  function SkipRawField(s: string, key: string): (r: Option<string>)
    ensures r.Some? ==> |r.value| < |s|
  {
    match SkipText(s, "\"" + key + "\"")
    case None => None
    case Some(s1) =>
      match SkipText(TrimStart(s1), ":")
      case None => None
      case Some(s2) =>
        match SkipText(TrimStart(s2), "\"")
        case None => None
        case Some(s3) =>
          match SkipStringBody(s3)
          case None => None
          case Some(s4) =>
            var s5 := TrimStart(s4);
            Some(if StartsWith(s5, ",") then TrimStart(s5[1..]) else s5)
  }

  function DropRawFields(s: string, key: string): string
    decreases |s|
  {
    if s == "" then ""
    else
      match SkipRawField(s, key)
      case Some(rest) => DropRawFields(rest, key)
      case None => [s[0]] + DropRawFields(s[1..], key)
  }

  function DropTrailingCommas(s: string): string
    decreases |s|
  {
    if s == "" then ""
    else if s[0] == ',' && StartsWith(TrimStart(s[1..]), "}") then
      "}" + DropTrailingCommas(TrimStart(s[1..])[1..])
    else [s[0]] + DropTrailingCommas(s[1..])
  }

  function StripRaw(json: string): string {
    DropTrailingCommas(DropRawFields(DropRawFields(json, INTENT), DISPLAY_NAME))
  }

  // ----- strip, then re-inject -----

  /** Each metadata field is absent or a non-empty string. */
  predicate Restorable(fields: Fields) {
    && (Has(fields, INTENT) ==> Truthy(StringField(fields, INTENT)))
    && (Has(fields, DISPLAY_NAME) ==> Truthy(StringField(fields, DISPLAY_NAME)))
  }

  lemma CleanMap(fields: Fields)
    requires Distinct(fields)
    ensures Distinct(Clean(fields))
    ensures AsMap(Clean(fields)) == AsMap(fields) - {INTENT, DISPLAY_NAME}
    ensures !Has(Clean(fields), INTENT) && !Has(Clean(fields), DISPLAY_NAME)
  {
    RemoveMap(fields, INTENT);
    RemoveMap(Remove(fields, INTENT), DISPLAY_NAME);
    AsMapHas(Clean(fields), INTENT);
    AsMapHas(Clean(fields), DISPLAY_NAME);
  }

  /** The re-injected input as a map: the replayed fields win over the stored ones. */
  lemma ReinjectMap(store: Store, toolId: string, fields: Fields)
    requires Distinct(fields)
    ensures Distinct(Reinject(store, toolId, fields))
    ensures AsMap(Reinject(store, toolId, fields))
         == (if toolId in store then AsMap(Missing(store[toolId], fields)) else map[]) + AsMap(fields)
  {
    if toolId in store {
      var extra := Missing(store[toolId], fields);
      MergeMap(extra, fields);
    }
  }

  function IfTruthy(key: string, s: Option<string>): map<string, Json> {
    if Truthy(s) then map[key := Str(s.value)] else map[]
  }

  lemma MissingMap(meta: Meta, fields: Fields)
    requires !Has(fields, INTENT) && !Has(fields, DISPLAY_NAME)
    ensures AsMap(Missing(meta, fields)) == IfTruthy(DISPLAY_NAME, meta.displayName) + IfTruthy(INTENT, meta.intent)
  {
    var extra := Missing(meta, fields);
    if |extra| == 2 {
      AsMapPair(extra[0], extra[1]);
      assert extra == [extra[0], extra[1]];
    } else if |extra| == 1 {
      AsMapOne(extra[0]);
      assert extra == [extra[0]];
    }
  }

  lemma AsMapPair(a: Field, b: Field)
    ensures AsMap([a, b]) == map[a.key := a.value][b.key := b.value]
  {
    assert Init([a, b]) == [a];
    AsMapOne(a);
  }

  lemma AsMapOne(a: Field)
    ensures AsMap([a]) == map[a.key := a.value]
  {
    assert Init([a]) == [];
    assert AsMap(Init([a])) == map[];
  }

  /** A field read back as a string is that field of the map. */
  lemma StringFieldMap(fields: Fields, key: string)
    requires Distinct(fields)
    ensures Has(fields, key) <==> key in AsMap(fields)
    ensures Truthy(StringField(fields, key)) ==>
      key in AsMap(fields) && AsMap(fields)[key] == Str(StringField(fields, key).value)
  {
    GetIsAsMap(fields, key);
  }

  /** What comes back as a map: all fields, except metadata that is not a non-empty string. */
  lemma StripThenReinjectMap(store: Store, toolId: string, fields: Fields)
    requires Distinct(fields) && toolId !in store
    ensures AsMap(Reinject(Capture(store, toolId, fields), toolId, Clean(fields)))
         == IfTruthy(DISPLAY_NAME, StringField(fields, DISPLAY_NAME))
            + IfTruthy(INTENT, StringField(fields, INTENT))
            + (AsMap(fields) - {INTENT, DISPLAY_NAME})
  {
    var captured := Capture(store, toolId, fields);
    CleanMap(fields);
    ReinjectMap(captured, toolId, Clean(fields));
    if toolId in captured {
      MissingMap(captured[toolId], Clean(fields));
    }
  }

  /** Strip and re-inject give the tool input back exactly when its metadata is restorable. */
  lemma StripThenReinject(store: Store, toolId: string, fields: Fields)
    requires Distinct(fields) && toolId !in store
    ensures AsMap(Reinject(Capture(store, toolId, fields), toolId, Clean(fields))) == AsMap(fields)
       <==> Restorable(fields)
  {
    StripThenReinjectMap(store, toolId, fields);
    StringFieldMap(fields, INTENT);
    StringFieldMap(fields, DISPLAY_NAME);
    SameBack(AsMap(fields), StringField(fields, INTENT), StringField(fields, DISPLAY_NAME));
  }

  /** Putting two values back into a map from which their keys were removed. */
  lemma SameBack(m: map<string, Json>, intent: Option<string>, displayName: Option<string>)
    requires Truthy(intent) ==> INTENT in m && m[INTENT] == Str(intent.value)
    requires Truthy(displayName) ==> DISPLAY_NAME in m && m[DISPLAY_NAME] == Str(displayName.value)
    ensures IfTruthy(DISPLAY_NAME, displayName) + IfTruthy(INTENT, intent) + (m - {INTENT, DISPLAY_NAME}) == m
       <==> (INTENT in m ==> Truthy(intent)) && (DISPLAY_NAME in m ==> Truthy(displayName))
  {
    var back := IfTruthy(DISPLAY_NAME, displayName) + IfTruthy(INTENT, intent) + (m - {INTENT, DISPLAY_NAME});
    assert INTENT in back <==> Truthy(intent);
    assert DISPLAY_NAME in back <==> Truthy(displayName);
  }

  // ----- capture, clean and re-inject as maps -----

  /** A string value of an argument map. */
  function StringIn(m: map<string, Json>, key: string): Option<string> {
    if key in m && m[key].Str? then Some(m[key].s) else None
  }

  /** The metadata of an argument map. */
  function MetaIn(m: map<string, Json>): Meta {
    Meta(StringIn(m, "_intent"), StringIn(m, "_displayName"))
  }

  /** Some of the metadata is a string that is not empty. */
  predicate WorthKeeping(meta: Meta) {
    (meta.intent.Some? && meta.intent.value != "") || (meta.displayName.Some? && meta.displayName.value != "")
  }

  /** An argument map without its metadata. */
  function Bare(m: map<string, Json>): map<string, Json> {
    m - {"_intent", "_displayName"}
  }

  /** The fields that stored metadata stands for: those that are not empty. */
  function Stored(meta: Meta): map<string, Json> {
    (if meta.displayName.Some? && meta.displayName.value != "" then map["_displayName" := Str(meta.displayName.value)] else map[])
    + (if meta.intent.Some? && meta.intent.value != "" then map["_intent" := Str(meta.intent.value)] else map[])
  }

  /** What is stored and what is left of an argument map together give the map. */
  predicate RestorableMap(m: map<string, Json>) {
    && ("_intent" in m ==> m["_intent"].Str? && m["_intent"].s != "")
    && ("_displayName" in m ==> m["_displayName"].Str? && m["_displayName"].s != "")
  }

  lemma WorthKeepingMeans(m: map<string, Json>)
    ensures var intent := if "_intent" in m && m["_intent"].Str? then Some(m["_intent"].s) else None;
      var displayName := if "_displayName" in m && m["_displayName"].Str? then Some(m["_displayName"].s) else None;
      MetaIn(m) == Meta(intent, displayName)
      && (WorthKeeping(MetaIn(m)) <==> !(intent in [None, Some("")] && displayName in [None, Some("")]))
  {
  }

  lemma CaptureMeaning(store: Store, toolId: string, fields: Fields)
    requires Distinct(fields)
    ensures var meta := MetaIn(AsMap(fields));
            Capture(store, toolId, fields) == if WorthKeeping(meta) then store[toolId := meta] else store
  {
    GetIsAsMap(fields, "_intent");
    GetIsAsMap(fields, "_displayName");
  }

  lemma CleanMeaning(fields: Fields)
    requires Distinct(fields)
    ensures Distinct(Clean(fields)) && AsMap(Clean(fields)) == Bare(AsMap(fields))
  {
    CleanMap(fields);
  }

  /** Re-injected arguments are the replayed ones over the stored metadata. */
  lemma ReinjectMeaning(store: Store, toolId: string, fields: Fields)
    requires Distinct(fields)
    ensures Distinct(Reinject(store, toolId, fields))
    ensures AsMap(Reinject(store, toolId, fields))
         == (if toolId in store then Stored(store[toolId]) else map[]) + AsMap(fields)
  {
    ReinjectMap(store, toolId, fields);
    if toolId in store {
      MissingCovered(store[toolId], fields);
    }
  }

  lemma MissingCovered(meta: Meta, fields: Fields)
    requires Distinct(fields)
    ensures AsMap(Missing(meta, fields)) + AsMap(fields) == Stored(meta) + AsMap(fields)
  {
    MissingAsMap(meta, fields);
    AsMapHas(fields, "_intent");
    AsMapHas(fields, "_displayName");
    hide AsMap, Missing, Has;
    var m := AsMap(fields);
    assert (Stored(meta) + m).Keys == (AsMap(Missing(meta, fields)) + m).Keys;
  }

  lemma MissingAsMap(meta: Meta, fields: Fields)
    ensures AsMap(Missing(meta, fields)) ==
            IfTruthy("_displayName", if Has(fields, "_displayName") then None else meta.displayName)
            + IfTruthy("_intent", if Has(fields, "_intent") then None else meta.intent)
  {
    hide Has;
    var extra := Missing(meta, fields);
    if |extra| == 2 {
      AsMapPair(extra[0], extra[1]);
      assert extra == [extra[0], extra[1]];
    } else if |extra| == 1 {
      AsMapOne(extra[0]);
      assert extra == [extra[0]];
    }
  }

  /** An argument map comes back from its two parts exactly when its metadata is restorable. */
  lemma TakenApart(m: map<string, Json>)
    ensures (if WorthKeeping(MetaIn(m)) then Stored(MetaIn(m)) else map[]) + Bare(m) == m <==> RestorableMap(m)
  {
    var back := (if WorthKeeping(MetaIn(m)) then Stored(MetaIn(m)) else map[]) + Bare(m);
    assert "_intent" in back <==> Truthy(StringIn(m, "_intent"));
    assert "_displayName" in back <==> Truthy(StringIn(m, "_displayName"));
    if RestorableMap(m) {
      assert forall key :: key in m <==> key in back;
      assert forall key :: key in m ==> m[key] == back[key];
    }
  }

  /** Re-injecting a second time changes nothing, not even the order of the fields. */
  lemma ReinjectTwice(store: Store, toolId: string, fields: Fields)
    requires Distinct(fields)
    ensures Reinject(store, toolId, Reinject(store, toolId, fields)) == Reinject(store, toolId, fields)
  {
    if toolId in store {
      var once := Reinject(store, toolId, fields);
      var extra := Missing(store[toolId], fields);
      ReinjectMap(store, toolId, fields);
      forall e | e in extra
        ensures Has(once, e.key)
      {
        var i :| 0 <= i < |extra| && extra[i] == e;
        assert Distinct(extra);
        AsMapAt(extra, i);
        AsMapHas(once, e.key);
      }
      forall key | Has(fields, key)
        ensures Has(once, key)
      {
        AsMapHas(fields, key);
        AsMapHas(once, key);
      }
      assert Missing(store[toolId], once) == [];
    }
  }

  /** Cleaning the text of an argument object leaves the object without its metadata. */
  lemma CleanTextMeaning(json: string, fields: Fields)
    requires Parse(json) == Some(Obj(fields))
    ensures Distinct(fields)
    ensures Parse(CleanText(json)) == Some(Obj(Clean(fields)))
    ensures AsMap(Clean(fields)) == AsMap(fields) - {INTENT, DISPLAY_NAME}
  {
    assert WellFormed(Obj(fields));
    CleanWellFormed(fields);
    CleanMap(fields);
    RoundTrip(Obj(Clean(fields)));
  }

  lemma CleanWellFormed(fields: Fields)
    requires WellFormed(Obj(fields))
    ensures WellFormed(Obj(Clean(fields)))
  {
    RemoveWellFormed(fields, INTENT);
    RemoveWellFormed(Remove(fields, INTENT), DISPLAY_NAME);
  }

  lemma RemoveWellFormed(fields: Fields, key: string)
    requires WellFormed(Obj(fields))
    ensures WellFormed(Obj(Remove(fields, key)))
  {
    RemoveFields(fields, key);
  }
}
