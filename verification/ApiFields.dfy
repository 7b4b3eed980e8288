/** How a printed field line reads back, tags included. */
module ApiFields {
  import opened Prelude
  import opened Text
  import opened ApiSpec
  import opened ApiParser
  import opened ApiPrinter
  import opened ApiLexical

  // --------------------------------------------------------------- quotes that could open a tag value

  /** A quote at `q` right after `c:`, as at the start of the value of a tag ending in `c`. */
  ghost predicate Opens(s: string, q: int, c: char) {
    2 <= q < |s| && s[q] == '"' && s[q - 1] == ':' && s[q - 2] == c
  }

  ghost predicate Inert(s: string, c: char) {
    forall q :: !Opens(s, q, c)
  }

  lemma InertPlain(a: string, b: string, c: char)
    requires Inert(a, c) && '"' !in b
    ensures Inert(a + b, c)
  {
    var s := a + b;
    forall q ensures !Opens(s, q, c) {
      if 2 <= q < |a| {
        assert s[q] == a[q] && s[q - 1] == a[q - 1] && s[q - 2] == a[q - 2];
        assert !Opens(a, q, c);
      } else if |a| <= q < |s| {
        assert s[q] == b[q - |a|];
      }
    }
  }

  lemma NoQuoteInert(a: string, c: char)
    requires '"' !in a
    ensures Inert(a, c)
  {
    forall q ensures !Opens(a, q, c) {
      assert 0 <= q < |a| ==> a[q] in a;
    }
  }

  /** A value that closes cleanly: no quote in it, and no colon just before the closing quote. */
  predicate Quotable(v: string) {
    v != "" && '"' !in v && v[|v| - 1] != ':'
  }

  /** A whole tag only opens for its own last letter. */
  lemma InertTag(a: string, tag: string, v: string, c: char)
    requires Inert(a, c) && tag != "" && '"' !in tag && Quotable(v) && c != tag[|tag| - 1]
    ensures Inert(a + TagText(tag, v), c)
  {
    var s := a + TagText(tag, v);
    var open := |a| + |tag| + 1;
    var close := open + |v| + 1;
    assert s == a + tag + ":\"" + v + "\"";
    assert s[open] == '"' && s[open - 1] == ':' && s[open - 2] == tag[|tag| - 1];
    assert s[close] == '"' && s[close - 1] == v[|v| - 1];
    forall q ensures !Opens(s, q, c) {
      if 2 <= q < |a| {
        assert s[q] == a[q] && s[q - 1] == a[q - 1] && s[q - 2] == a[q - 2];
        assert !Opens(a, q, c);
      } else if |a| <= q < open - 1 {
        assert s[q] == tag[q - |a|];
      } else if open < q < close {
        assert s[q] == v[q - open - 1];
      }
    }
  }

  lemma NeedleOpens(s: string, tag: string, i: nat)
    requires tag != "" && OccursAt(s, tag + ":\"", i)
    ensures Opens(s, i + |tag| + 1, tag[|tag| - 1])
  {
    var needle := tag + ":\"";
    OccursChar(s, needle, i, |tag| + 1);
    OccursChar(s, needle, i, |tag|);
    OccursChar(s, needle, i, |tag| - 1);
  }

  lemma MissNeedle(s: string, tag: string)
    requires tag != "" && Inert(s, tag[|tag| - 1])
    ensures TagValueFull(s, tag).None? && TagValue(s, tag).None?
  {
    hide Inert, Opens;
    var needle := tag + ":\"";
    if Find(s, needle).Some? {
      var k := Find(s, needle).value;
      NeedleOpens(s, tag, k);
      InertAt(s, tag[|tag| - 1], k + |tag| + 1);
    }
  }

  lemma InertAt(s: string, c: char, q: int)
    requires Inert(s, c)
    ensures !Opens(s, q, c)
  {
  }

  /** The first place where the needle occurs is the tag itself. */
  lemma FindNeedle(a: string, tag: string, rest: string)
    requires tag != "" && '"' !in tag && Inert(a, tag[|tag| - 1])
    ensures Find(a + tag + ":\"" + rest, tag + ":\"") == Some(|a|)
  {
    var needle := tag + ":\"";
    var s := a + tag + ":\"" + rest;
    assert s[|a|..|a| + |needle|] == needle;
    assert OccursAt(s, needle, |a|);
    assert forall k | |a| <= k < |a| + |tag| :: s[k] == tag[k - |a|];
    assert s[|a| + |tag|] == ':';
    forall i | 0 <= i < |a| ensures !OccursAt(s, needle, i) {
      if OccursAt(s, needle, i) {
        NeedleOpens(s, tag, i);
        var q := i + |tag| + 1;
        if q < |a| {
          assert s[q] == a[q] && s[q - 1] == a[q - 1] && s[q - 2] == a[q - 2];
          InertAt(a, tag[|tag| - 1], q);
        }
      }
    }
  }

  ghost predicate Valued(v: string) {
    Quotable(v) && v != "-" && Safe(v)
  }

  lemma HitNeedle(a: string, tag: string, v: string, b: string)
    requires tag != "" && '"' !in tag && Inert(a, tag[|tag| - 1]) && Valued(v)
    ensures TagValueFull(a + TagText(tag, v) + b, tag) == Some(v)
  {
    hide Find, Inert, Safe;
    var needle := tag + ":\"";
    var rest := v + "\"" + b;
    var s := a + TagText(tag, v) + b;
    assert s == a + tag + ":\"" + rest;
    FindNeedle(a, tag, rest);
    assert s[|a| + |needle|..] == rest;
    assert rest == v + ['"'] + b;
    FindCharAt(v, '"', b);
    assert rest[..|v|] == v;
  }

  lemma HitName(a: string, tag: string, v: string, b: string)
    requires tag != "" && '"' !in tag && Inert(a, tag[|tag| - 1]) && Valued(v) && ',' !in v
    ensures TagValue(a + TagText(tag, v) + b, tag) == Some(v)
  {
    hide Find, Inert, Safe, TagValueFull;
    HitNeedle(a, tag, v, b);
    assert FindChar(v, ',') == |v|;
    assert v[..|v|] == v;
  }

  // --------------------------------------------------------------- tags

  predicate SourceTag(tag: string) {
    tag == "json" || tag == "query" || tag == "form" || tag == "path" || tag == "header"
  }

  /** The five source tags and `validate` all end in different letters. */
  lemma LastLetters(a: string, b: string)
    requires (SourceTag(a) || a == "validate") && (SourceTag(b) || b == "validate")
    ensures a != "" && b != "" && '"' !in a
    ensures a[|a| - 1] == b[|b| - 1] <==> a == b
  {
  }

  lemma TagNameIsSource(f: Field)
    requires !f.source.Auto?
    ensures SourceTag(TagName(f.source))
  {
  }

  ghost predicate TagsOk(f: Field) {
    && (!f.source.Auto? ==> Valued(WireName(f)) && ',' !in WireName(f))
    && (f.validate.Some? ==> Valued(f.validate.value))
  }

  /** The line up to its tags, up to the `validate` tag, and whole. */
  function Opened(head: string): string {
    head + " `"
  }

  function BeforeValidate(head: string, f: Field): string {
    if f.source.Auto? then Opened(head) else Opened(head) + TagText(TagName(f.source), WireName(f)) + " "
  }

  lemma TagsShape(head: string, f: Field)
    ensures f.source.Auto? && f.validate.None? ==> head + TagsText(f) == head
    ensures !f.source.Auto? && f.validate.None? ==>
              head + TagsText(f) == Opened(head) + TagText(TagName(f.source), WireName(f)) + "`"
    ensures f.validate.Some? ==>
              head + TagsText(f) == BeforeValidate(head, f) + TagText("validate", f.validate.value) + "`"
    ensures !f.source.Auto? && f.validate.Some? ==>
              head + TagsText(f) == Opened(head) + TagText(TagName(f.source), WireName(f))
                                    + (" " + TagText("validate", f.validate.value) + "`")
  {
    hide TagText, TagName, WireName;
  }

  /** Everything before the `validate` tag opens only for the source tag's letter. */
  lemma BeforeValidateInert(head: string, f: Field, c: char)
    requires '"' !in head && TagsOk(f)
    requires f.source.Auto? || c != TagName(f.source)[|TagName(f.source)| - 1] || TagName(f.source) == ""
    ensures Inert(BeforeValidate(head, f), c)
  {
    hide Inert, Safe, WireName;
    NoQuoteInert(Opened(head), c);
    if !f.source.Auto? {
      TagNameIsSource(f);
      LastLetters(TagName(f.source), "json");
      InertTag(Opened(head), TagName(f.source), WireName(f), c);
      InertPlain(Opened(head) + TagText(TagName(f.source), WireName(f)), " ", c);
    }
  }

  /** A source tag is found exactly when it is the field's own. */
  lemma SourceTagReads(head: string, f: Field, tag: string)
    requires '"' !in head && TagsOk(f) && SourceTag(tag)
    ensures TagValue(head + TagsText(f), tag) ==
              if !f.source.Auto? && TagName(f.source) == tag then Some(WireName(f)) else None
  {
    hide Inert, Safe, WireName, TagValue, TagsText, TagText;
    TagsShape(head, f);
    var c := tag[|tag| - 1];
    LastLetters(tag, "validate");
    if !f.source.Auto? && TagName(f.source) == tag {
      NoQuoteInert(Opened(head), c);
      HitName(Opened(head), tag, WireName(f),
              if f.validate.None? then "`" else " " + TagText("validate", f.validate.value) + "`");
    } else {
      if !f.source.Auto? {
        TagNameIsSource(f);
        LastLetters(tag, TagName(f.source));
      }
      LineInert(head, f, c);
      MissNeedle(head + TagsText(f), tag);
    }
  }

  lemma LineInert(head: string, f: Field, c: char)
    requires '"' !in head && TagsOk(f) && c != 'e'
    requires f.source.Auto? || c != TagName(f.source)[|TagName(f.source)| - 1] || TagName(f.source) == ""
    ensures Inert(head + TagsText(f), c)
  {
    hide Inert, Safe, WireName, TagsText, TagText;
    TagsShape(head, f);
    BeforeValidateInert(head, f, c);
    if f.validate.Some? {
      InertTag(BeforeValidate(head, f), "validate", f.validate.value, c);
      InertPlain(BeforeValidate(head, f) + TagText("validate", f.validate.value), "`", c);
    } else if f.source.Auto? {
      NoQuoteInert(head, c);
    } else {
      TagNameIsSource(f);
      LastLetters(TagName(f.source), "json");
      NoQuoteInert(Opened(head), c);
      InertTag(Opened(head), TagName(f.source), WireName(f), c);
      InertPlain(Opened(head) + TagText(TagName(f.source), WireName(f)), "`", c);
    }
  }

  lemma ValidateReads(head: string, f: Field)
    requires '"' !in head && TagsOk(f)
    ensures TagValueFull(head + TagsText(f), "validate") == f.validate
  {
    hide Inert, Safe, WireName, TagsText, TagText, TagValueFull;
    TagsShape(head, f);
    if !f.source.Auto? {
      TagNameIsSource(f);
      LastLetters(TagName(f.source), "validate");
    }
    if f.validate.Some? {
      BeforeValidateInert(head, f, 'e');
      HitNeedle(BeforeValidate(head, f), "validate", f.validate.value, "`");
    } else {
      if f.source.Auto? {
        NoQuoteInert(head, 'e');
      } else {
        NoQuoteInert(Opened(head), 'e');
        InertTag(Opened(head), TagName(f.source), WireName(f), 'e');
        InertPlain(Opened(head) + TagText(TagName(f.source), WireName(f)), "`", 'e');
      }
      MissNeedle(head + TagsText(f), "validate");
    }
  }

  // --------------------------------------------------------------- name and type

  ghost predicate FieldWord(s: string) {
    s != "" && NoSpace(s) && '"' !in s && Safe(s)
  }

  ghost predicate FieldOk(f: Field) {
    && TagsOk(f) && FieldWord(f.ty)
    && (if f.embedded then f.ty[|f.ty| - 1] != ':' && f.ty[0] != '*' && f.ty != "}"
        else FieldWord(f.name) && f.name[|f.name| - 1] != ':' && f.ty[0] != '`')
  }

  function HeadText(f: Field): string {
    if f.embedded then f.ty else f.name + " " + f.ty
  }

  /** What the tags leave of the JSON and wire names. */
  function CanonField(f: Field): Field {
    var g := if f.embedded then f.(name := EmbeddedName(f.ty)) else f;
    if f.source.Auto? then g.(jsonName := None, wireName := None)
    else g.(jsonName := if f.source.Header? then None else Some(WireName(f)), wireName := Some(WireName(f)))
  }

  lemma TokenReads(word: string, rest: string)
    requires word != "" && NoSpace(word) && (rest == "" || IsWhitespace(rest[0]))
    ensures Token(word + rest) == word && AfterToken(word + rest) == rest
  {
    var s := word + rest;
    assert TrimStart(s) == s;
    FindSpaceAt(word, rest);
    assert s[..|word|] == word && s[|word|..] == rest;
  }

  lemma TagsStart(f: Field)
    ensures TagsText(f) == "" || (|TagsText(f)| > 2 && TagsText(f)[0] == ' ' && TagsText(f)[1] == '`')
    ensures TagsText(f) != "" ==> TagsText(f)[|TagsText(f)| - 1] == '`'
  {
    hide TagText, TagName, WireName;
  }

  lemma TagToken(f: Field)
    ensures Token(TagsText(f)) == "" || Token(TagsText(f))[0] == '`'
  {
    TagsStart(f);
    var t := TagsText(f);
    hide TagsText;
    if t != "" {
      assert t == " " + t[1..];
      TrimStartBlank(" ", t[1..]);
      assert TrimStart(t[1..]) == t[1..];
    }
  }

  lemma HeadReads(f: Field, at: nat)
    requires FieldOk(f)
    ensures FieldHead(HeadText(f) + TagsText(f), at) ==
              Ok(Field(if f.embedded then EmbeddedName(f.ty) else f.name, f.ty, f.embedded, None, Auto, None, None))
  {
    hide Safe, TagsText, Token, AfterToken, EmbeddedName, TagsOk;
    TagsStart(f);
    TagToken(f);
    var tags := TagsText(f);
    if f.embedded {
      TokenReads(f.ty, tags);
    } else {
      var line := HeadText(f) + tags;
      assert line == f.name + (" " + f.ty + tags);
      TokenReads(f.name, " " + f.ty + tags);
      assert " " + f.ty + tags == " " + (f.ty + tags);
      TokenAfterSpace(f.ty, tags);
    }
  }

  lemma TokenAfterSpace(word: string, rest: string)
    requires word != "" && NoSpace(word) && (rest == "" || IsWhitespace(rest[0]))
    ensures Token(" " + (word + rest)) == word
  {
    TrimStartBlank(" ", word + rest);
    assert TrimStart(word + rest) == word + rest;
    FindSpaceAt(word, rest);
    assert (word + rest)[..|word|] == word;
  }

  /** A printed field line reads back as the field, its names settled by its tag. */
  lemma FieldReads(f: Field, at: nat)
    requires FieldOk(f)
    ensures FieldLine(FieldText(f), at) == Ok(CanonField(f))
  {
    hide Safe, TagsText, FieldHead, TagValue, TagValueFull, EmbeddedName, WireName, TagsOk;
    var head, line := HeadText(f), HeadText(f) + TagsText(f);
    assert FieldText(f) == line;
    HeadReads(f, at);
    assert '"' !in head;
    SourceTagReads(head, f, "json");
    SourceTagReads(head, f, "query");
    SourceTagReads(head, f, "form");
    SourceTagReads(head, f, "path");
    SourceTagReads(head, f, "header");
    ValidateReads(head, f);
    TagOnlyOne(f);
  }

  lemma TagOnlyOne(f: Field)
    ensures TagName(f.source) == "json" <==> f.source.Json?
    ensures TagName(f.source) == "query" <==> f.source.Query?
    ensures TagName(f.source) == "form" <==> f.source.Form?
    ensures TagName(f.source) == "path" <==> f.source.Path?
    ensures TagName(f.source) == "header" <==> f.source.Header?
  {
    assert "json"[0] != "query"[0] && "form"[0] != "path"[0];
  }
}
