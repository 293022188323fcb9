/** The removal of metadata from an arguments text that does not parse, such as one that was cut short. */
module RawStrip {
  import opened Options
  import opened Text
  import opened Json
  import opened ToolMetadata

  predicate Blank(s: string) {
    forall i :: 0 <= i < |s| ==> IsSpace(s[i])
  }

  /** A metadata field as it may be written: white space around the colon, and after it a comma or none, and white space. */
  function Written(key: string, w1: string, w2: string, v: string, w3: string, comma: Option<string>): string {
    "\"" + key + "\"" + w1 + ":" + w2 + Quote(v) + w3 + (if comma.Some? then "," + comma.value else "")
  }

  /** What may follow it: nothing that belongs to the field. */
  predicate Follows(after: string, comma: Option<string>) {
    after != "" ==> !IsSpace(after[0]) && (comma.None? ==> after[0] != ',')
  }

  lemma {:induction false} TrimsBlank(w: string, s: string)
    requires Blank(w) && (s != "" ==> !IsSpace(s[0]))
    ensures TrimStart(w + s) == s
  {
    hide IsSpace;
    if w == "" {
      assert w + s == s;
    } else {
      assert (w + s)[1..] == w[1..] + s;
      TrimsBlank(w[1..], s);
    }
  }

  lemma Skips(expected: string, rest: string)
    ensures SkipText(expected + rest, expected) == Some(rest)
  {
    assert (expected + rest)[..|expected|] == expected;
  }

  lemma {:induction false} SkipsEscaped(v: string, rest: string)
    ensures SkipStringBody(Escape(v) + "\"" + rest) == Some(rest)
  {
    hide EscapeChar;
    if v == "" {
      assert Escape(v) + "\"" + rest == "\"" + rest && ("\"" + rest)[1..] == rest;
    } else {
      SkipsEscaped(v[1..], rest);
      var more := Escape(v[1..]) + "\"" + rest;
      assert Escape(v) + "\"" + rest == EscapeChar(v[0]) + more;
      SkipsOne(v[0], more);
    }
  }

  lemma SkipsOne(c: char, more: string)
    ensures SkipStringBody(EscapeChar(c) + more) == SkipStringBody(more)
  {
    var e := EscapeChar(c);
    var s := e + more;
    if |e| == 1 {
      assert s[1..] == more;
    } else if |e| == 2 {
      assert s[2..] == more;
    } else {
      assert s[0] == '\\' && s[1] == 'u' && s[2] == '0' && s[3] == '0' && |e| == 6;
      SkipsPlain(s[2..], 4);
      assert s[2..][4..] == more && s[2..][2] == e[4] && s[2..][3] == e[5];
    }
  }

  lemma {:induction false} SkipsPlain(s: string, n: nat)
    requires n <= |s| && forall i :: 0 <= i < n ==> s[i] != '\"' && s[i] != '\\'
    ensures SkipStringBody(s) == SkipStringBody(s[n..])
  {
    if n > 0 {
      SkipsPlain(s[1..], n - 1);
      assert s[1..][n - 1..] == s[n..];
    } else {
      assert s[0..] == s;
    }
  }

  lemma FieldParts(key: string, w1: string, w2: string, v: string, w3: string, tail: string, after: string)
    ensures "\"" + key + "\"" + w1 + ":" + w2 + Quote(v) + w3 + tail + after ==
            ("\"" + key + "\"") + (w1 + (":" + (w2 + ("\"" + (Escape(v) + "\"" + (w3 + (tail + after)))))))
  {
    var k := "\"" + key + "\"";
    hide Escape;
    Regroup(k + w1 + ":" + w2 + Quote(v) + w3, tail, after);
    Regroup(k + w1 + ":" + w2 + Quote(v), w3, tail + after);
    Regroup(k + w1 + ":" + w2, Quote(v), w3 + (tail + after));
    QuoteShape(v, w3 + (tail + after));
    Regroup(k + w1 + ":", w2, Quote(v) + (w3 + (tail + after)));
    Regroup(k + w1, ":", w2 + (Quote(v) + (w3 + (tail + after))));
    Regroup(k, w1, ":" + (w2 + (Quote(v) + (w3 + (tail + after)))));
  }

  lemma FieldSkipped(key: string, w1: string, w2: string, v: string, w3: string, comma: Option<string>, after: string)
    requires Blank(w1) && Blank(w2) && Blank(w3) && (comma.Some? ==> Blank(comma.value)) && Follows(after, comma)
    ensures SkipRawField(Written(key, w1, w2, v, w3, comma) + after, key) == Some(after)
  {
    hide Blank, IsSpace, Escape, SkipText, SkipStringBody, TrimStart, Quote;
    var tail := if comma.Some? then "," + comma.value else "";
    FieldParts(key, w1, w2, v, w3, tail, after);
    var s4 := w3 + (tail + after);
    var s3 := Escape(v) + "\"" + s4;
    var s2 := w2 + ("\"" + s3);
    var s1 := w1 + (":" + s2);
    PlainMarks();
    Skips("\"" + key + "\"", s1);
    TrimsBlank(w1, ":" + s2);
    Skips(":", s2);
    TrimsBlank(w2, "\"" + s3);
    Skips("\"", s3);
    SkipsEscaped(v, s4);
    TailTrimmed(w3, comma, after);
  }

  lemma PlainMarks()
    ensures !IsSpace(':') && !IsSpace('\"') && !IsSpace(',')
  {
  }

  lemma TailTrimmed(w3: string, comma: Option<string>, after: string)
    requires Blank(w3) && (comma.Some? ==> Blank(comma.value)) && Follows(after, comma)
    ensures var s5 := TrimStart(w3 + ((if comma.Some? then "," + comma.value else "") + after));
      (if StartsWith(s5, ",") then TrimStart(s5[1..]) else s5) == after
  {
    hide Blank, IsSpace;
    PlainMarks();
    if comma.Some? {
      assert "," + comma.value + after == "," + (comma.value + after);
      TrimsBlank(w3, "," + (comma.value + after));
      TrimsBlank(comma.value, after);
      assert ("," + (comma.value + after))[1..] == comma.value + after;
    } else {
      assert "" + after == after;
      TrimsBlank(w3, after);
    }
  }

  /** No field of this key begins among the first `n` characters. */
  predicate NoneBegins(s: string, n: nat, key: string) {
    forall i :: 0 <= i < n && i < |s| ==> SkipRawField(s[i..], key) == None
  }

  lemma {:induction false} DropsNothing(before: string, s: string, key: string)
    requires NoneBegins(before + s, |before|, key)
    ensures DropRawFields(before + s, key) == before + DropRawFields(s, key)
  {
    hide SkipRawField;
    var whole := before + s;
    if before == "" {
      assert whole == s;
    } else {
      assert whole[0..] == whole && whole[1..] == before[1..] + s;
      assert forall i :: 0 <= i < |before| - 1 ==> whole[1..][i..] == whole[i + 1..];
      DropsNothing(before[1..], s, key);
      assert DropRawFields(whole, key) == [whole[0]] + DropRawFields(whole[1..], key);
    }
  }

  /** A text without a field of this key stays. */
  lemma NothingGoes(s: string, key: string)
    requires NoneBegins(s, |s|, key)
    ensures DropRawFields(s, key) == s
  {
    assert s + "" == s;
    DropsNothing(s, "", key);
  }

  /** The first field of a key goes, wherever it stands and however it is spaced, with its comma if it has one. */
  lemma FieldGoes(before: string, key: string, w1: string, w2: string, v: string, w3: string, comma: Option<string>, after: string)
    requires Blank(w1) && Blank(w2) && Blank(w3) && (comma.Some? ==> Blank(comma.value)) && Follows(after, comma)
    requires NoneBegins(before + (Written(key, w1, w2, v, w3, comma) + after), |before|, key)
    ensures DropRawFields(before + (Written(key, w1, w2, v, w3, comma) + after), key) == before + DropRawFields(after, key)
  {
    hide Blank, Follows, Written, SkipRawField;
    var s := Written(key, w1, w2, v, w3, comma) + after;
    DropsNothing(before, s, key);
    FieldSkipped(key, w1, w2, v, w3, comma, after);
    NotEmpty(key, w1, w2, v, w3, comma, after);
  }

  lemma NotEmpty(key: string, w1: string, w2: string, v: string, w3: string, comma: Option<string>, after: string)
    ensures Written(key, w1, w2, v, w3, comma) + after != ""
  {
  }

  /** No comma stands before a closing brace. */
  predicate NoTrailingComma(s: string) {
    forall i :: 0 <= i < |s| && s[i] == ',' ==> !StartsWith(TrimStart(s[i + 1..]), "}")
  }

  lemma {:induction false} CommasStay(s: string)
    requires NoTrailingComma(s)
    ensures DropTrailingCommas(s) == s
    decreases |s|
  {
    if s != "" {
      assert forall i :: 0 <= i < |s| - 1 ==> s[1..][i] == s[i + 1] && s[1..][i + 1..] == s[i + 2..];
      assert s[1..] == s[0 + 1..];
      CommasStay(s[1..]);
      assert s == [s[0]] + s[1..];
    }
  }

  /** A comma that the removal leaves before a closing brace goes too. */
  lemma {:induction false} CommaGoes(before: string, w: string, after: string)
    requires ',' !in before && Blank(w)
    ensures DropTrailingCommas(before + ("," + (w + ("}" + after)))) == before + ("}" + DropTrailingCommas(after))
    decreases |before|
  {
    hide Blank, IsSpace;
    var s := before + ("," + (w + ("}" + after)));
    if before == "" {
      BraceIsPlain();
      TrimsBlank(w, "}" + after);
      assert s[1..] == w + ("}" + after) && ("}" + after)[1..] == after;
    } else {
      assert before[0] in before && forall c :: c in before[1..] ==> c in before;
      assert s[1..] == before[1..] + ("," + (w + ("}" + after)));
      CommaGoes(before[1..], w, after);
    }
  }

  lemma BraceIsPlain()
    ensures !IsSpace('}')
  {
  }

  /** Of an object that is cut short after its metadata, both fields go and the rest stays. */
  lemma CutShort(v: string, d: string, tail: string)
    requires tail != "" && !IsSpace(tail[0])
    requires NoneBegins(Written("_displayName", "", "", d, "", Some("")) + tail, |Written("_displayName", "", "", d, "", Some("")) + tail|, "_intent")
    requires NoneBegins("{" + tail, |tail| + 1, "_displayName") && NoTrailingComma("{" + tail)
    ensures StripRaw("{" + (Written("_intent", "", "", v, "", Some("")) + (Written("_displayName", "", "", d, "", Some("")) + tail))) == "{" + tail
  {
    hide Written, SkipRawField, DropTrailingCommas;
    var rest := Written("_displayName", "", "", d, "", Some("")) + tail;
    BraceBegins("_intent", Written("_intent", "", "", v, "", Some("")) + rest);
    BraceBegins("_displayName", rest);
    WrittenFirst("_displayName", d, tail);
    FieldGoes("{", "_intent", "", "", v, "", Some(""), rest);
    NothingGoes(rest, "_intent");
    FieldGoes("{", "_displayName", "", "", d, "", Some(""), tail);
    NothingGoes("{" + tail, "_displayName");
    BraceBegins("_displayName", tail);
    DropsNothing("{", tail, "_displayName");
    CommasStay("{" + tail);
  }

  lemma BraceBegins(key: string, s: string)
    ensures NoneBegins("{" + s, 1, key)
  {
    assert ("{" + s)[0..] == "{" + s;
    assert ("{" + s)[0] != ("\"" + key + "\"")[0];
  }

  lemma WrittenFirst(key: string, d: string, tail: string)
    ensures var s := Written(key, "", "", d, "", Some("")) + tail; s != "" && !IsSpace(s[0])
  {
    var s := Written(key, "", "", d, "", Some("")) + tail;
    assert s[0] == '\"';
  }
}
