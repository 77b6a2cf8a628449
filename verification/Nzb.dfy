/** ghetto_xml_escape of src/main.cc as a transformation of texts. */
module Nzb {
  import opened Text

  // ---- ghetto_xml_escape ------------------------------------------------------------------------------

  function Entity(c: char): string
  {
    match c
    case '\"' => "&quot;"
    case '\'' => "&apos;"
    case '<' => "&lt;"
    case '>' => "&gt;"
    case _ => [c]
  }

  /** The escaping as one pass over the text. */
  function Escaped(s: string): string
  {
    if s == "" then "" else Entity(s[0]) + Escaped(s[1..])
  }

  method GhettoXmlEscape(str: string) returns (escaped: string)
    ensures escaped == Escaped(str)
  {
    escaped := str;
    escaped := ReplaceAll(escaped, '\"', "&quot;");
    escaped := ReplaceAll(escaped, '\'', "&apos;");
    escaped := ReplaceAll(escaped, '<', "&lt;");
    escaped := ReplaceAll(escaped, '>', "&gt;");
    ChainIsOnePass(str);
    escaped := ReplaceAll(escaped, '>', "&amp;");
    EscapedIsClean(str);
    ReplaceAbsent(Escaped(str), '>', "&amp;");
  }

  function Chain(s: string): string
  {
    ReplaceAll(ReplaceAll(ReplaceAll(ReplaceAll(s, '\"', "&quot;"), '\'', "&apos;"), '<', "&lt;"), '>', "&gt;")
  }

  lemma ChainAppend(a: string, b: string)
    ensures Chain(a + b) == Chain(a) + Chain(b)
  {
    var a1, b1 := ReplaceAll(a, '\"', "&quot;"), ReplaceAll(b, '\"', "&quot;");
    var a2, b2 := ReplaceAll(a1, '\'', "&apos;"), ReplaceAll(b1, '\'', "&apos;");
    var a3, b3 := ReplaceAll(a2, '<', "&lt;"), ReplaceAll(b2, '<', "&lt;");
    ReplaceAppend(a, b, '\"', "&quot;");
    ReplaceAppend(a1, b1, '\'', "&apos;");
    ReplaceAppend(a2, b2, '<', "&lt;");
    ReplaceAppend(a3, b3, '>', "&gt;");
  }

  lemma ChainOne(c: char)
    ensures Chain([c]) == Entity(c)
  {
    var a := ReplaceAll([c], '\"', "&quot;");
    var b := ReplaceAll(a, '\'', "&apos;");
    var d := ReplaceAll(b, '<', "&lt;");
    assert a == (if c == '\"' then Entity(c) else [c]) by {
      ReplaceOne(c, '\"', "&quot;");
    }
    assert b == (if c == '\"' || c == '\'' then Entity(c) else [c]) by {
      NextStage(c, a, '\'', "&apos;");
    }
    assert d == (if c == '\"' || c == '\'' || c == '<' then Entity(c) else [c]) by {
      NextStage(c, b, '<', "&lt;");
    }
    NextStage(c, d, '>', "&gt;");
  }

  /** A replacement acts on its own character and on no entity. */
  lemma NextStage(c: char, t: string, d: char, text: string)
    requires (d == '\'' && text == "&apos;") || (d == '<' && text == "&lt;") || (d == '>' && text == "&gt;")
    requires t == [c] || (t == Entity(c) && c != d)
    ensures ReplaceAll(t, d, text) == if t == [c] && c == d then Entity(c) else t
  {
    if t == [c] {
      ReplaceOne(c, d, text);
    } else {
      assert d !in t;
      ReplaceAbsent(t, d, text);
    }
  }

  /** The first four replacements in a row are one pass. */
  lemma {:induction false} ChainIsOnePass(s: string)
    ensures Chain(s) == Escaped(s)
  {
    if s != "" {
      ChainIsOnePass(s[1..]);
      ChainOne(s[0]);
      ChainAppend([s[0]], s[1..]);
      assert s == [s[0]] + s[1..];
    }
  }

  predicate Clean(s: string)
  {
    forall i :: 0 <= i < |s| ==> s[i] != '\"' && s[i] != '\'' && s[i] != '<' && s[i] != '>'
  }

  lemma {:induction false} EscapedIsClean(s: string)
    ensures Clean(Escaped(s))
  {
    if s != "" {
      EscapedIsClean(s[1..]);
      assert Clean(Entity(s[0]));
    }
  }

  /** The fifth replacement never fires. */
  lemma LastReplacementIsIdle(s: string)
    ensures ReplaceAll(Chain(s), '>', "&amp;") == Chain(s)
  {
    ChainIsOnePass(s);
    EscapedIsClean(s);
    ReplaceAbsent(Escaped(s), '>', "&amp;");
  }

  // ---- Unescaping -------------------------------------------------------------------------------------

  /** The entity s begins with: its length and its character. */
  function Leading(s: string): (r: Option<(nat, char)>)
    ensures r.Some? ==> 4 <= r.value.0 <= |s|
  {
    if "&quot;" <= s then Some((6, '\"'))
    else if "&apos;" <= s then Some((6, '\''))
    else if "&lt;" <= s then Some((4, '<'))
    else if "&gt;" <= s then Some((4, '>'))
    else if "&amp;" <= s then Some((5, '&'))
    else None
  }

  /** What an XML reader makes of a text with the five predefined entities. */
  function Unescaped(s: string): string
    decreases |s|
  {
    if s == "" then ""
    else
      var e := Leading(s);
      if e.Some? then [e.value.1] + Unescaped(s[e.value.0..]) else [s[0]] + Unescaped(s[1..])
  }

  /** An entity occurs in s as it stands. */
  predicate HasEntity(s: string)
  {
    s != "" && (Leading(s).Some? || HasEntity(s[1..]))
  }

  /** Escaping leaves ordinary text in front as it is. */
  lemma {:induction false} EscapedPrefix(p: string, s: string)
    requires p <= s && forall i :: 0 <= i < |p| ==> Entity(p[i]) == [p[i]]
    ensures Escaped(s) == p + Escaped(s[|p|..])
  {
    if p != "" {
      var rest := Escaped(s[|p|..]);
      assert Escaped(s[1..]) == p[1..] + rest by {
        assert p[1..] <= s[1..] && s[1..][|p[1..]|..] == s[|p|..];
        EscapedPrefix(p[1..], s[1..]);
      }
      assert Escaped(s) == [p[0]] + Escaped(s[1..]);
      Assoc([p[0]], p[1..], rest);
      assert [p[0]] + p[1..] == p;
    }
  }

  /** An ordinary text in front of the escaped one was in front of the original, when no '&' can come from
      an entity inside it. */
  lemma {:induction false} EscapedStarts(p: string, s: string)
    requires p <= Escaped(s)
    requires forall i :: 0 <= i < |p| ==> p[i] != '&' && Entity(p[i]) == [p[i]]
    ensures p <= s
  {
    if p != "" {
      assert Entity(s[0])[0] == p[0] != '&';
      assert Entity(s[0]) == [s[0]];
      assert Escaped(s)[1..] == Escaped(s[1..]);
      assert p[1..] <= Escaped(s)[1..];
      EscapedStarts(p[1..], s[1..]);
    }
  }

  predicate Ordinary(p: string)
  {
    forall i :: 0 <= i < |p| ==> p[i] != '&' && Entity(p[i]) == [p[i]]
  }

  lemma AmpersandStarts(p: string, s: string)
    requires s != "" && s[0] == '&' && Ordinary(p)
    ensures "&" + p <= Escaped(s) <==> "&" + p <= s
  {
    var q := "&" + p;
    assert Escaped(s) == ['&'] + Escaped(s[1..]);
    assert Escaped(s)[1..] == Escaped(s[1..]) && q[1..] == p;
    if q <= Escaped(s) {
      assert q[1..] <= Escaped(s)[1..];
      EscapedStarts(p, s[1..]);
      assert s == ['&'] + s[1..];
    }
    if q <= s {
      EscapedPrefix(q, s);
    }
  }

  lemma SameQuot(s: string)
    requires s != "" && s[0] == '&'
    ensures "&quot;" <= Escaped(s) <==> "&quot;" <= s
  {
    SameStart("quot;", "&quot;", s);
  }

  lemma SameApos(s: string)
    requires s != "" && s[0] == '&'
    ensures "&apos;" <= Escaped(s) <==> "&apos;" <= s
  {
    SameStart("apos;", "&apos;", s);
  }

  lemma SameLt(s: string)
    requires s != "" && s[0] == '&'
    ensures "&lt;" <= Escaped(s) <==> "&lt;" <= s
  {
    SameStart("lt;", "&lt;", s);
  }

  lemma SameGt(s: string)
    requires s != "" && s[0] == '&'
    ensures "&gt;" <= Escaped(s) <==> "&gt;" <= s
  {
    SameStart("gt;", "&gt;", s);
  }

  lemma SameAmp(s: string)
    requires s != "" && s[0] == '&'
    ensures "&amp;" <= Escaped(s) <==> "&amp;" <= s
  {
    SameStart("amp;", "&amp;", s);
  }

  lemma AmpersandLeading(s: string)
    requires s != "" && s[0] == '&'
    ensures Leading(Escaped(s)) == Leading(s)
  {
    SameQuot(s);
    SameApos(s);
    SameLt(s);
    SameGt(s);
    SameAmp(s);
  }

  lemma LeadingOfEscaped(s: string)
    requires s != "" && Entity(s[0]) == [s[0]]
    ensures Leading(Escaped(s)) == Leading(s)
  {
    assert Escaped(s)[0] == s[0];
    if s[0] == '&' {
      AmpersandLeading(s);
    } else {
      NoLeading(s);
      NoLeading(Escaped(s));
    }
  }

  lemma SameStart(p: string, entity: string, s: string)
    requires s != "" && s[0] == '&' && entity == "&" + p
    requires p == "quot;" || p == "apos;" || p == "lt;" || p == "gt;" || p == "amp;"
    ensures entity <= Escaped(s) <==> entity <= s
  {
    assert Ordinary(p);
    AmpersandStarts(p, s);
  }

  lemma NoLeading(s: string)
    requires s != "" && s[0] != '&'
    ensures Leading(s).None?
  {
    PrefixAgrees("&quot;", s);
    PrefixAgrees("&apos;", s);
    PrefixAgrees("&lt;", s);
    PrefixAgrees("&gt;", s);
    PrefixAgrees("&amp;", s);
  }

  /** Unescaping an entity that stands in front of anything. */
  lemma UnescapeEntity(c: char, rest: string)
    requires Entity(c) != [c]
    ensures Unescaped(Entity(c) + rest) == [c] + Unescaped(rest)
  {
    var s := Entity(c) + rest;
    var n := |Entity(c)|;
    assert s[..n] == Entity(c) && s[n..] == rest && Entity(c) <= s;
    assert s[1] == Entity(c)[1];
    PrefixAgrees("&quot;", s);
    PrefixAgrees("&apos;", s);
    PrefixAgrees("&lt;", s);
    assert Leading(s) == Some((n, c));
  }

  /** The text of an entity passes through the escaping unchanged. */
  lemma EntityPasses(s: string)
    requires s != "" && Leading(s).Some?
    ensures var n := Leading(s).value.0;
            Escaped(s) == s[..n] + Escaped(s[n..]) && Leading(Escaped(s)) == Leading(s)
  {
    var n := Leading(s).value.0;
    if s[0] != '&' {
      NoLeading(s);
    }
    EscapedPrefix(s[..n], s);
    LeadingOfEscaped(s);
  }

  /** Unescaping never makes more of the escaped text than there was, and less if an entity was in it. */
  lemma {:induction false} UnescapedLength(s: string)
    ensures |Unescaped(Escaped(s))| <= |s|
    ensures HasEntity(s) ==> |Unescaped(Escaped(s))| < |s|
    decreases |s|
  {
    if s != "" {
      var e := Leading(s);
      if Entity(s[0]) != [s[0]] {
        UnescapedLength(s[1..]);
        UnescapeEntity(s[0], Escaped(s[1..]));
        NoLeading(s);
      } else if e.Some? {
        EntityPasses(s);
        var n := e.value.0;
        UnescapedLength(s[n..]);
        assert Escaped(s)[n..] == Escaped(s[n..]);
      } else {
        LeadingOfEscaped(s);
        UnescapedLength(s[1..]);
        assert Escaped(s)[1..] == Escaped(s[1..]);
      }
    }
  }

  /** Unescaping inverts the escaping exactly on the texts that contain no entity of their own. */
  lemma {:induction false} UnescapeInvertsIff(s: string)
    ensures Unescaped(Escaped(s)) == s <==> !HasEntity(s)
    decreases |s|
  {
    UnescapedLength(s);
    if s != "" && !HasEntity(s) {
      UnescapeInvertsIff(s[1..]);
      if Entity(s[0]) != [s[0]] {
        UnescapeEntity(s[0], Escaped(s[1..]));
      } else {
        LeadingOfEscaped(s);
        assert Escaped(s)[1..] == Escaped(s[1..]);
      }
      assert s == [s[0]] + s[1..];
    }
  }

  lemma {:induction false} NoAmpersandNoEntity(s: string)
    requires '&' !in s
    ensures !HasEntity(s)
  {
    if s != "" {
      NoLeading(s);
      NoAmpersandNoEntity(s[1..]);
    }
  }

  /** On texts without '&' the escaping can be undone. */
  lemma UnescapeInverts(s: string)
    requires '&' !in s
    ensures Unescaped(Escaped(s)) == s
  {
    NoAmpersandNoEntity(s);
    UnescapeInvertsIff(s);
  }

  /** '&' itself is never escaped, so two different texts can come out the same. */
  lemma AmpersandCollides()
    ensures Escaped("<") == Escaped("&lt;") == "&lt;"
  {
    EscapedPrefix("&lt;", "&lt;");
    assert "&lt;"[4..] == "";
  }
}
