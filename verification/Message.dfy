/** src/nntp/message.{hpp,cc} and connection::send_article: an article as header and payload, and the
    bytes a client writes for it; the article reader of the server; what the two make of each other. */
module Message {
  import opened Text

  datatype Element = Element(field: string, value: string)

  datatype Header = Header(
    from: string,
    newsgroups: seq<string>,
    subject: string,
    msgid: string,
    additional: seq<Element>)

  /** `payload` is m_payload: the list of payload pieces. */
  datatype Article = Article(header: Header, payload: seq<string>)

  const MESSAGE_TERM := "\r\n.\r\n"
  const DOT_LINE := ".\r\n"

  // ---- header::write_to -------------------------------------------------------------------

  /** boost::algorithm::join */
  function Join(parts: seq<string>, sep: string): string
  {
    if parts == [] then "" else if |parts| == 1 then parts[0] else parts[0] + sep + Join(parts[1..], sep)
  }

  function ElementLine(e: Element): string
  {
    (e.field + ": " + e.value) + CRLF
  }

  function ElementLines(es: seq<Element>): seq<string>
  {
    if es == [] then [] else [ElementLine(es[0])] + ElementLines(es[1..])
  }

  function FixedLines(h: Header): seq<string>
  {
    [("From: " + h.from) + CRLF,
     ("Newsgroups: " + Join(h.newsgroups, ",")) + CRLF,
     ("Subject: " + h.subject) + CRLF]
    + (if h.msgid != "" then [("Message-ID: " + h.msgid) + CRLF] else [])
  }

  function HeaderLines(h: Header): seq<string>
  {
    FixedLines(h) + ElementLines(h.additional)
  }

  function HeaderText(h: Header): string
  {
    Concat(HeaderLines(h))
  }

  method WriteHeader(h: Header) returns (stream: string)
    ensures stream == HeaderText(h)
  {
    stream := ("From: " + h.from) + CRLF;
    stream := stream + (("Newsgroups: " + Join(h.newsgroups, ",")) + CRLF);
    stream := stream + (("Subject: " + h.subject) + CRLF);
    if |h.msgid| != 0 {
      stream := stream + (("Message-ID: " + h.msgid) + CRLF);
    }
    FixedText(h);
    assert stream == Concat(FixedLines(h));
    ConcatAppend(FixedLines(h), ElementLines(h.additional));
    ghost var fixed := stream;
    for i := 0 to |h.additional|
      invariant stream + Concat(ElementLines(h.additional[i..])) == fixed + Concat(ElementLines(h.additional))
    {
      ghost var es := h.additional[i..];
      assert es[1..] == h.additional[i + 1..];
      assert Concat(ElementLines(es)) == ElementLine(es[0]) + Concat(ElementLines(es[1..]));
      Assoc(stream, ElementLine(es[0]), Concat(ElementLines(es[1..])));
      stream := stream + ElementLine(h.additional[i]);
    }
    assert h.additional[|h.additional|..] == [];
  }

  lemma FixedText(h: Header)
    ensures Concat(FixedLines(h))
         == ("From: " + h.from) + CRLF
          + (("Newsgroups: " + Join(h.newsgroups, ",")) + CRLF)
          + (("Subject: " + h.subject) + CRLF)
          + (if h.msgid != "" then ("Message-ID: " + h.msgid) + CRLF else "")
  {
    var l0, l1, l2 := ("From: " + h.from) + CRLF, ("Newsgroups: " + Join(h.newsgroups, ",")) + CRLF, ("Subject: " + h.subject) + CRLF;
    var id := if h.msgid != "" then [("Message-ID: " + h.msgid) + CRLF] else [];
    assert FixedLines(h) == [l0] + ([l1] + ([l2] + id));
    ConsLine(l0, [l1] + ([l2] + id));
    ConsLine(l1, [l2] + id);
    ConsLine(l2, id);
    assert id != [] ==> id[1..] == [] && Concat(id) == id[0];
    Assoc(l0, l1, l2 + Concat(id));
    Assoc(l0 + l1, l2, Concat(id));
  }

  // ---- The payload ------------------------------------------------------------------------

  /** get_payload_size */
  method PayloadSize(a: Article) returns (ret: nat)
    ensures ret == |Concat(a.payload)|
  {
    ret := 0;
    for i := 0 to |a.payload|
      invariant ret + |Concat(a.payload[i..])| == |Concat(a.payload)|
    {
      assert a.payload[i..][1..] == a.payload[i + 1..];
      ret := ret + |a.payload[i]|;
    }
  }

  // ---- send_article -----------------------------------------------------------------------

  /** m_send_parts: the buffers handed to one write. */
  function SendParts(a: Article): seq<string>
  {
    [HeaderText(a.header), CRLF] + a.payload + [MESSAGE_TERM]
  }

  /** The bytes of one article on the wire. */
  function Wire(a: Article): string
  {
    Concat(SendParts(a))
  }

  /** The wire bytes without the last line: header, empty line, payload, and the CRLF MESSAGE_TERM opens with. */
  function Front(a: Article): string
  {
    HeaderText(a.header) + (CRLF + (Concat(a.payload) + CRLF))
  }

  lemma WireIsFrontAndDot(a: Article)
    ensures Wire(a) == Front(a) + DOT_LINE
  {
    var p := Concat(a.payload);
    ConcatAppend([HeaderText(a.header), CRLF] + a.payload, [MESSAGE_TERM]);
    ConcatAppend([HeaderText(a.header), CRLF], a.payload);
    assert Concat([MESSAGE_TERM]) == MESSAGE_TERM == CRLF + DOT_LINE;
    assert Concat([HeaderText(a.header), CRLF]) == HeaderText(a.header) + CRLF;
    assert (HeaderText(a.header) + CRLF) + p + MESSAGE_TERM == Front(a) + DOT_LINE;
  }

  // ---- The reader on the other side --------------------------------------------------------

  /** The do-while loop of the server: whole lines up to and including the one that is a lone dot.
      Returns the bytes taken and what is left; None when the input ends first. */
  function ReadArticle(s: string): Option<(string, string)>
    decreases |s|
  {
    var e := LineEnd(s);
    if e == 0 then None
    else if s[..e] == DOT_LINE then Some((s[..e], s[e..]))
    else
      var r := ReadArticle(s[e..]);
      if r.None? then None else Some((s[..e] + r.value.0, r.value.1))
  }

  lemma ReadLineThenArticle(l: string, tail: string)
    requires IsLine(l)
    ensures ReadArticle(l + tail)
         == if l == DOT_LINE then Some((l, tail))
            else if ReadArticle(tail).None? then None
            else Some((l + ReadArticle(tail).value.0, ReadArticle(tail).value.1))
  {
    LineEndPrefix(l, tail);
    assert l[|l|..] + tail == tail;
  }

  /** The reader takes everything up to the first dot line, whatever the lines are. */
  lemma {:induction false} ReadArticleLines(ls: seq<string>, rest: string)
    requires AreLines(ls)
    requires DOT_LINE !in ls
    ensures ReadArticle(Concat(ls) + (DOT_LINE + rest)) == Some((Concat(ls) + DOT_LINE, rest))
  {
    if ls == [] {
      assert IsLine(DOT_LINE);
      ReadLineThenArticle(DOT_LINE, rest);
      assert Concat(ls) == "" && "" + (DOT_LINE + rest) == DOT_LINE + rest && "" + DOT_LINE == DOT_LINE;
    } else {
      var tail := Concat(ls[1..]) + (DOT_LINE + rest);
      ReadArticleLines(ls[1..], rest);
      assert ls[0] in ls;
      ReadLineThenArticle(ls[0], tail);
      Assoc(ls[0], Concat(ls[1..]), DOT_LINE + rest);
      Assoc(ls[0], Concat(ls[1..]), DOT_LINE);
    }
  }

  lemma {:induction false} ReadArticleStopsEarly(ls: seq<string>, tail: string)
    requires AreLines(ls)
    requires DOT_LINE in ls
    ensures var r := ReadArticle(Concat(ls) + tail);
            r.Some? && |r.value.1| >= |tail|
  {
    var more := Concat(ls[1..]) + tail;
    ReadLineThenArticle(ls[0], more);
    Assoc(ls[0], Concat(ls[1..]), tail);
    assert Concat(ls) + tail == ls[0] + more;
    if ls[0] == DOT_LINE {
      assert ReadArticle(ls[0] + more) == Some((ls[0], more));
    } else {
      assert ls == [ls[0]] + ls[1..];
      ReadArticleStopsEarly(ls[1..], tail);
    }
  }

  lemma FrontHasNoResidue(a: Article)
    ensures Concat(Lines(Front(a))) == Front(a)
  {
    var f := Front(a);
    var body := HeaderText(a.header) + (CRLF + Concat(a.payload));
    assert f == body + CRLF;
    EndsWithCrlf(body);
    LinesCover(f);
  }

  lemma {:induction false} EndsWithCrlf(s: string)
    ensures Residue(s + CRLF) == ""
    decreases |s|
  {
    var e := LineEnd(s);
    if e == 0 {
      TerminatedIsLine(s);
      assert (s + CRLF)[|s + CRLF|..] == "";
    } else {
      LineEndPrefix(s, CRLF);
      EndsWithCrlf(s[e..]);
    }
  }

  /** The client does no dot-stuffing. So for every article whatsoever: the server takes exactly the
      bytes of this article if and only if no earlier line of them is a lone dot. */
  lemma {:induction false} OneArticleIff(a: Article, rest: string)
    ensures ReadArticle(Wire(a) + rest) == Some((Wire(a), rest)) <==> DOT_LINE !in Lines(Front(a))
  {
    var ls := Lines(Front(a));
    WireIsFrontAndDot(a);
    FrontHasNoResidue(a);
    LinesAreLines(Front(a));
    Assoc(Front(a), DOT_LINE, rest);
    if DOT_LINE in ls {
      ReadArticleStopsEarly(ls, DOT_LINE + rest);
    } else {
      ReadArticleLines(ls, rest);
    }
  }

  // ---- Framing of the articles the program sends --------------------------------------------

  /** No CR or LF in any header value, and no additional field name that opens with a dot. */
  ghost predicate CleanHeader(h: Header)
  {
    && Plain(h.from) && Plain(h.subject) && Plain(h.msgid) && Plain(Join(h.newsgroups, ","))
    && forall i :: 0 <= i < |h.additional| ==> CleanElement(h.additional[i])
  }

  ghost predicate CleanElement(e: Element)
  {
    Plain(e.field) && Plain(e.value) && !("." <= e.field)
  }

  /** Lines none of which opens with a dot. */
  ghost predicate DotFree(ls: seq<string>)
  {
    forall i :: 0 <= i < |ls| ==> !("." <= ls[i])
  }

  lemma FixedLinesAreLines(h: Header)
    requires CleanHeader(h)
    ensures AreLines(FixedLines(h)) && DotFree(FixedLines(h))
  {
    PlainLine("From: " + h.from);
    PlainLine("Newsgroups: " + Join(h.newsgroups, ","));
    PlainLine("Subject: " + h.subject);
    PlainLine("Message-ID: " + h.msgid);
    var l0, l1, l2 := ("From: " + h.from) + CRLF, ("Newsgroups: " + Join(h.newsgroups, ",")) + CRLF, ("Subject: " + h.subject) + CRLF;
    var id := if h.msgid != "" then [("Message-ID: " + h.msgid) + CRLF] else [];
    assert FixedLines(h) == [l0] + ([l1] + ([l2] + id));
    ConsLine(l0, [l1] + ([l2] + id));
    ConsLine(l1, [l2] + id);
    ConsLine(l2, id);
    assert id != [] ==> id[1..] == [];
    assert AreLines(id);
  }

  lemma {:induction false} ElementLinesAreLines(es: seq<Element>)
    requires forall i :: 0 <= i < |es| ==> CleanElement(es[i])
    ensures AreLines(ElementLines(es)) && DotFree(ElementLines(es))
  {
    if es != [] {
      assert CleanElement(es[0]);
      PlainLine(es[0].field + ": " + es[0].value);
      ElementLinesAreLines(es[1..]);
    }
  }

  lemma HeaderLinesAreLines(h: Header)
    requires CleanHeader(h)
    ensures AreLines(HeaderLines(h)) && DotFree(HeaderLines(h))
  {
    FixedLinesAreLines(h);
    ElementLinesAreLines(h.additional);
    AreLinesAppend(FixedLines(h), ElementLines(h.additional));
  }

  /** Every line of the wire bytes, in order, when the payload consists of whole lines. */
  function WireLines(h: Header, payloadLines: seq<string>): seq<string>
  {
    HeaderLines(h) + ([CRLF] + (payloadLines + [CRLF]))
  }

  lemma FrontLines(a: Article, payloadLines: seq<string>)
    requires CleanHeader(a.header)
    requires Concat(a.payload) == Concat(payloadLines) && AreLines(payloadLines) && DotFree(payloadLines)
    ensures AreLines(WireLines(a.header, payloadLines)) && DotFree(WireLines(a.header, payloadLines))
    ensures Concat(WireLines(a.header, payloadLines)) == Front(a)
  {
    HeaderLinesAreLines(a.header);
    assert IsLine(CRLF);
    AreLinesAppend(payloadLines, [CRLF]);
    AreLinesAppend([CRLF], payloadLines + [CRLF]);
    AreLinesAppend(HeaderLines(a.header), [CRLF] + (payloadLines + [CRLF]));
    ConcatAppend(payloadLines, [CRLF]);
    ConcatAppend([CRLF], payloadLines + [CRLF]);
    ConcatAppend(HeaderLines(a.header), [CRLF] + (payloadLines + [CRLF]));
    assert Concat([CRLF]) == CRLF;
  }

  /** Framing without dot-stuffing. The bytes sent split into the header lines, an empty line, the
      payload lines, an empty line and the dot line; only that last one opens with a dot, and the
      reader takes exactly this article from any input that begins with it. */
  lemma {:induction false} Framing(a: Article, payloadLines: seq<string>, rest: string)
    requires CleanHeader(a.header)
    requires Concat(a.payload) == Concat(payloadLines) && AreLines(payloadLines) && DotFree(payloadLines)
    ensures Lines(Wire(a)) == WireLines(a.header, payloadLines) + [DOT_LINE]
    ensures Residue(Wire(a)) == ""
    ensures DotFree(WireLines(a.header, payloadLines))
    ensures ReadArticle(Wire(a) + rest) == Some((Wire(a), rest))
  {
    var ls := WireLines(a.header, payloadLines);
    FrontLines(a, payloadLines);
    WireIsFrontAndDot(a);
    assert DOT_LINE !in ls;
    ReadArticleLines(ls, rest);
    Assoc(Concat(ls), DOT_LINE, rest);
    assert IsLine(DOT_LINE) && AreLines([DOT_LINE]);
    LinesOfConcat(ls, DOT_LINE);
    LinesOfConcat([DOT_LINE], "");
    assert Concat([DOT_LINE]) + "" == DOT_LINE;
  }

  // ---- Section 3.1.1 of RFC 3977 -------------------------------------------------------------

  /** Receiving a multi-line block: the initial dot of a line that has one is removed. */
  function Unstuff(ls: seq<string>): seq<string>
  {
    if ls == [] then []
    else [if "." <= ls[0] then ls[0][1..] else ls[0]] + Unstuff(ls[1..])
  }

  lemma {:induction false} UnstuffDotFree(ls: seq<string>)
    requires DotFree(ls)
    ensures Unstuff(ls) == ls
  {
    if ls != [] {
      UnstuffDotFree(ls[1..]);
    }
  }

  /** A conforming receiver, which unstuffs, gets the same lines as the client wrote. */
  lemma {:induction false} UnstuffingChangesNothing(a: Article, payloadLines: seq<string>)
    requires CleanHeader(a.header)
    requires Concat(a.payload) == Concat(payloadLines) && AreLines(payloadLines) && DotFree(payloadLines)
    ensures var ls := Lines(Wire(a));
            && |ls| > 0
            && Unstuff(ls[..|ls| - 1]) == ls[..|ls| - 1]
            && Concat(Unstuff(ls[..|ls| - 1])) == Front(a)
  {
    Framing(a, payloadLines, "");
    FrontLines(a, payloadLines);
    var ls := Lines(Wire(a));
    assert ls[..|ls| - 1] == WireLines(a.header, payloadLines);
    UnstuffDotFree(ls[..|ls| - 1]);
  }

  function AfterDot(h: Header, w: string): string
  {
    (w + CRLF) + ((if h.msgid != "" then ("Message-ID: " + h.msgid) + CRLF else "") + Concat(ElementLines(h.additional)))
  }

  lemma HeaderSplits(h: Header, u: string, w: string)
    requires h.subject == u + CRLF + DOT_LINE + w
    ensures HeaderText(h)
         == ((("From: " + h.from) + CRLF)
            + ((("Newsgroups: " + Join(h.newsgroups, ",")) + CRLF) + ((("Subject: " + u) + CRLF) + DOT_LINE)))
          + AfterDot(h, w)
  {
    var l0, l1 := ("From: " + h.from) + CRLF, ("Newsgroups: " + Join(h.newsgroups, ",")) + CRLF;
    var l2 := (("Subject: " + u) + CRLF) + DOT_LINE;
    var id := if h.msgid != "" then ("Message-ID: " + h.msgid) + CRLF else "";
    var es := Concat(ElementLines(h.additional));
    FixedText(h);
    ConcatAppend(FixedLines(h), ElementLines(h.additional));
    assert ("Subject: " + h.subject) + CRLF == l2 + (w + CRLF);
    FiveParts(l0, l1, l2, w + CRLF, id, es);
  }

  lemma FiveParts(a: string, b: string, c: string, d: string, e: string, f: string)
    ensures (((a + b) + (c + d)) + e) + f == (a + (b + c)) + (d + (e + f))
  {
  }

  /** The family behind the side condition: whenever the subject carries a dot line of its own, the
      server ends the article inside the header and reads the rest as commands. */
  lemma {:induction false} DotLineInSubjectBreaksFraming(a: Article, u: string, w: string, rest: string)
    requires Plain(a.header.from) && Plain(Join(a.header.newsgroups, ",")) && Plain(u)
    requires a.header.subject == u + CRLF + DOT_LINE + w
    ensures ReadArticle(Wire(a) + rest) != Some((Wire(a), rest))
  {
    var h := a.header;
    var l0, l1, l2 := "From: " + h.from, "Newsgroups: " + Join(h.newsgroups, ","), "Subject: " + u;
    PlainLine(l0);
    PlainLine(l1);
    PlainLine(l2);
    PlainLine(".");
    var ls := [l0 + CRLF, l1 + CRLF, l2 + CRLF, DOT_LINE];
    var more := AfterDot(h, w) + (CRLF + (Concat(a.payload) + CRLF));
    ConsLine(l0 + CRLF, [l1 + CRLF] + ([l2 + CRLF] + [DOT_LINE]));
    ConsLine(l1 + CRLF, [l2 + CRLF] + [DOT_LINE]);
    ConsLine(l2 + CRLF, [DOT_LINE]);
    assert [DOT_LINE][1..] == [] && Concat([DOT_LINE]) == DOT_LINE;
    assert ls == [l0 + CRLF] + ([l1 + CRLF] + ([l2 + CRLF] + [DOT_LINE]));
    HeaderSplits(h, u, w);
    Assoc(Concat(ls), AfterDot(h, w), CRLF + (Concat(a.payload) + CRLF));
    LinesOfConcat(ls, more);
    assert ls[3] in Lines(Front(a));
    OneArticleIff(a, rest);
  }
}
