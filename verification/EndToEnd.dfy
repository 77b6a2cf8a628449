/** From exit code 0 back to the files: what the NZB names, what was posted under these names, and what a
    reader of both makes of it. */
module EndToEnd {
  import opened Text
  import opened Message
  import opened Parts
  import opened ConnModel
  import opened PoolModel
  import opened TallyTheory
  import opened IdTheory
  import opened ReachTheory
  import opened WireTheory
  import opened Submission
  import opened NzbFile
  import MessageId

  // ---- A reader of articles ---------------------------------------------------------------------------

  const ID_LABEL := "Message-ID: "

  /** The message id in the header lines. */
  function IdOf(ls: seq<string>): Option<string>
  {
    if ls == [] || ls[0] == CRLF then None
    else if ID_LABEL <= ls[0] && |ls[0]| >= |ID_LABEL| + 2 then Some(ls[0][|ID_LABEL|..|ls[0]| - 2])
    else IdOf(ls[1..])
  }

  /** The lines after the empty line that ends the header. */
  function BodyOf(ls: seq<string>): seq<string>
  {
    if ls == [] then [] else if ls[0] == CRLF then ls[1..] else BodyOf(ls[1..])
  }

  function WireId(wire: string): Option<string>
  {
    IdOf(Lines(wire))
  }

  function WirePart(wire: string): Option<PartInfo>
  {
    ParsePart(Concat(BodyOf(Lines(wire))))
  }

  /** The first article posted under an id. */
  function Fetch(wires: seq<string>, id: string): Option<string>
  {
    if wires == [] then None
    else if WireId(wires[0]) == Some("<" + id + ">") then Some(wires[0])
    else Fetch(wires[1..], id)
  }

  /** What a downloader does with one file of an NZB: fetch every segment, decode it, join the data. */
  function Download(wires: seq<string>, segments: seq<Segment>): Option<seq<byte>>
  {
    if segments == [] then Some([])
    else
      var w := Fetch(wires, segments[0].id);
      if w.None? || WirePart(w.value).None? then None
      else
        var rest := Download(wires, segments[1..]);
        if rest.None? then None else Some(WirePart(w.value).value.data + rest.value)
  }

  lemma IdSkips(l: string, rest: seq<string>)
    requires l != CRLF && !(ID_LABEL <= l)
    ensures IdOf([l] + rest) == IdOf(rest)
  {
    assert ([l] + rest)[1..] == rest;
  }

  lemma IdFound(id: string, rest: seq<string>)
    ensures IdOf([("Message-ID: " + id) + CRLF] + rest) == Some(id)
  {
    var l := ("Message-ID: " + id) + CRLF;
    assert ID_LABEL <= l && l[|ID_LABEL|..|l| - 2] == id && l[0] != '\r';
  }

  lemma IdOfHeader(h: Header, rest: seq<string>)
    requires h.msgid != ""
    ensures IdOf(FixedLines(h) + rest) == Some(h.msgid)
  {
    var l0, l1, l2 := ("From: " + h.from) + CRLF, ("Newsgroups: " + Join(h.newsgroups, ",")) + CRLF, ("Subject: " + h.subject) + CRLF;
    var l3 := ("Message-ID: " + h.msgid) + CRLF;
    assert l0[0] == 'F' && l1[0] == 'N' && l2[0] == 'S';
    PrefixAgrees(ID_LABEL, l0);
    PrefixAgrees(ID_LABEL, l1);
    PrefixAgrees(ID_LABEL, l2);
    assert FixedLines(h) + rest == [l0] + ([l1] + ([l2] + ([l3] + rest)));
    IdSkips(l0, [l1] + ([l2] + ([l3] + rest)));
    IdSkips(l1, [l2] + ([l3] + rest));
    IdSkips(l2, [l3] + rest);
    IdFound(h.msgid, rest);
  }

  lemma {:induction false} BodyAfter(hs: seq<string>, rest: seq<string>)
    requires CRLF !in hs
    ensures BodyOf(hs + ([CRLF] + rest)) == rest
  {
    if hs == [] {
      assert hs + ([CRLF] + rest) == [CRLF] + rest && ([CRLF] + rest)[1..] == rest;
    } else {
      assert hs[0] in hs;
      assert (hs + ([CRLF] + rest))[1..] == hs[1..] + ([CRLF] + rest);
      BodyAfter(hs[1..], rest);
    }
  }

  lemma {:induction false} NoEmptyElement(es: seq<Element>)
    ensures CRLF !in ElementLines(es)
  {
    if es != [] {
      NoEmptyElement(es[1..]);
      assert |ElementLine(es[0])| > 2;
    }
  }

  lemma NoEmptyLine(h: Header)
    ensures CRLF !in HeaderLines(h)
  {
    NoEmptyElement(h.additional);
    var ls := FixedLines(h);
    forall i | 0 <= i < |ls|
      ensures |ls[i]| > 2
    {
    }
  }

  /** What the reader finds in the bytes of an article. */
  lemma ReadWire(a: Article, p: PartInfo)
    requires CleanHeader(a.header) && a.header.msgid != "" && Plain(p.name) && a.payload == [PartText(p)]
    ensures WireId(Wire(a)) == Some(a.header.msgid) && WirePart(Wire(a)) == Some(p)
  {
    var h, ls := a.header, PartLines(p);
    var body := (ls + [CRLF]) + [DOT_LINE];
    PartLinesAreLines(p);
    ConsLine(PartText(p), []);
    assert a.payload == [PartText(p)] + [] && Concat(a.payload) == Concat(ls);
    Framing(a, ls, "");
    assert Lines(Wire(a)) == HeaderLines(h) + ([CRLF] + body);
    Assoc(FixedLines(h), ElementLines(h.additional), [CRLF] + body);
    IdOfHeader(h, ElementLines(h.additional) + ([CRLF] + body));
    NoEmptyLine(h);
    BodyAfter(HeaderLines(h), body);
    ConcatAppend(ls, [CRLF] + [DOT_LINE]);
    Assoc(ls, [CRLF], [DOT_LINE]);
    PartRoundTrip(p, Concat([CRLF] + [DOT_LINE]));
  }

  // ---- The articles of a run ----------------------------------------------------------------------------

  /** All texts main takes from its configuration and from file names fit on one line, and the domain has
      no angle brackets. */
  ghost predicate CleanInputs(cfg: Settings, inputs: seq<Input>)
  {
    OneLine(cfg, inputs) && MessageId.NoBrackets(cfg.domain)
  }

  lemma {:induction false} JoinIsPlain(groups: seq<string>)
    requires forall i :: 0 <= i < |groups| ==> Plain(groups[i])
    ensures Plain(Join(groups, ","))
  {
    if |groups| > 1 {
      JoinIsPlain(groups[1..]);
    }
  }

  lemma PrintedIsPlain(nonce: string, domain: string, key: MessageId.Key)
    requires Plain(nonce) && Plain(domain)
    ensures Plain(MessageId.Print(nonce, domain, key)) && MessageId.Print(nonce, domain, key) != ""
  {
    DigitsArePlain(key.file, 10);
    DigitsArePlain(key.piece, 10);
  }

  lemma RandomIsClean(e: Element)
    requires RandomElement(e)
    ensures CleanElement(e)
  {
    var name: string :| NonceChars(name) && e.field == RANDOM_FIELD + name;
    NonceHasNoDot(e.value);
    NonceHasNoDot(name);
    assert e.field[0] == 'X';
    PrefixAgrees(".", e.field);
  }

  /** The article of piece p of file f, after any number of failures: a clean header with the id the NZB
      will name, and the chunk as payload. */
  lemma ArticleOf(run: Config, cfg: Settings, inputs: seq<Input>, m: Main, f: nat, p: nat)
    requires Submits(run, cfg, inputs) && CleanInputs(cfg, inputs) && Ids(run, m)
    requires f < |inputs| && p < PiecesOf(cfg, inputs[f]) && Offset(cfg, inputs, f) + p < |m.arts|
    ensures var a, key := Offset(cfg, inputs, f) + p, MessageId.Key(f, p);
            && a < |run.posts| && run.posts[a].key == key
            && m.arts[a].payload == [Chunk(cfg, inputs[f], p)]
            && CleanHeader(m.arts[a].header) && m.arts[a].header.msgid != ""
            && m.arts[a].header.msgid == MessageId.Print(NonceOf(run.nonce, m.exceptions, key), cfg.domain, key)
  {
    var a, key := Offset(cfg, inputs, f) + p, MessageId.Key(f, p);
    PieceIndex(cfg, inputs, run.nonce, f, p);
    assert ArtOk(run, m, a);
    var h := m.arts[a].header;
    var nonce := NonceOf(run.nonce, m.exceptions, key);
    SubmissionIsValid(run, cfg, inputs);
    NonceInUse(run, m, key);
    NonceHasNoDot(nonce);
    PrintedIsPlain(nonce, cfg.domain, key);
    SubjectIsPlain(cfg.subject, f, |inputs|, inputs[f].name, p, PiecesOf(cfg, inputs[f]));
    JoinIsPlain(cfg.groups);
    forall i | 0 <= i < |h.additional|
      ensures CleanElement(h.additional[i])
    {
      RandomIsClean(h.additional[i]);
    }
  }

  /** The state of main after a run with exit code 0. */
  ghost predicate Finished(run: Config, cfg: Settings, inputs: seq<Input>, m: Main)
  {
    && Submits(run, cfg, inputs) && CleanInputs(cfg, inputs)
    && Ids(run, m) && |m.arts| == |run.posts|
    && PostedOk(m.posted, m.arts) && |m.posted| == |run.posts|
    && forall a :: 0 <= a < |run.posts| ==> InPosted(m.posted, a) == 1
  }

  lemma {:induction false} RunFinished(run: Config, steps: seq<Step>, cfg: Settings, inputs: seq<Input>)
    requires Submits(run, cfg, inputs) && CleanInputs(cfg, inputs)
    requires Legal(run, steps) && After(run, steps).exit == Some(EXIT_OK)
    ensures Finished(run, cfg, inputs, After(run, steps).main)
  {
    SubmissionIsValid(run, cfg, inputs);
    IdsAlways(run, steps);
    WiresAlways(run, steps);
    forall a | 0 <= a < |run.posts|
      ensures InPosted(After(run, steps).main.posted, a) == 1
    {
      ExitOk(run, steps, a);
    }
    ExitOk(run, steps, 0);
  }

  function PostedWires(posted: seq<Posted>): seq<string>
  {
    seq(|posted|, i requires 0 <= i < |posted| => posted[i].wire)
  }

  /** The wire bytes of an article carry the id and the part of piece p of file f. */
  ghost predicate ReadsAs(run: Config, cfg: Settings, inputs: seq<Input>, m: Main, wire: string, f: nat, p: nat)
    requires cfg.articleSize > 0 && f < |inputs|
  {
    var key := MessageId.Key(f, p);
    && WireId(wire) == Some(MessageId.Print(NonceOf(run.nonce, m.exceptions, key), cfg.domain, key))
    && WirePart(wire) == Some(ChunkPart(cfg, inputs[f], p))
  }

  lemma {:induction false} ArticleReads(run: Config, cfg: Settings, inputs: seq<Input>, m: Main, f: nat, p: nat)
    requires Finished(run, cfg, inputs, m) && f < |inputs| && p < PiecesOf(cfg, inputs[f])
    ensures var a := Offset(cfg, inputs, f) + p;
            a < |m.arts| && ReadsAs(run, cfg, inputs, m, Wire(m.arts[a]), f, p)
  {
    PieceIndex(cfg, inputs, run.nonce, f, p);
    ArticleOf(run, cfg, inputs, m, f, p);
    ReadWire(m.arts[Offset(cfg, inputs, f) + p], ChunkPart(cfg, inputs[f], p));
  }

  /** The id and the part of everything that was posted. */
  lemma {:induction false} PostedReads(run: Config, cfg: Settings, inputs: seq<Input>, m: Main, a: nat) returns (f: nat, p: nat)
    requires Finished(run, cfg, inputs, m) && a < |m.arts|
    ensures f < |inputs| && p < PiecesOf(cfg, inputs[f]) && a == Offset(cfg, inputs, f) + p
    ensures ReadsAs(run, cfg, inputs, m, Wire(m.arts[a]), f, p)
  {
    var n := |Pieces(cfg, inputs, run.nonce)|;
    assert a < n;
    f, p := Locate(cfg, inputs, run.nonce, a);
    ArticleReads(run, cfg, inputs, m, f, p);
  }

  /** The NZB prints the id that was posted. */
  lemma NamedId(run: Config, cfg: Settings, inputs: seq<Input>, m: Main, sizes: map<nat, nat>, f: nat, p: nat)
    requires Submits(run, cfg, inputs) && CleanInputs(cfg, inputs) && Ids(run, m)
    ensures var key := MessageId.Key(f, p);
            var id := SegmentAt(cfg, sizes, run.nonce, m.exceptions, f, p).id;
            && "<" + id + ">" == MessageId.Print(NonceOf(run.nonce, m.exceptions, key), cfg.domain, key)
            && '<' !in id && Plain(id)
  {
    var key := MessageId.Key(f, p);
    var nonce := NonceOf(run.nonce, m.exceptions, key);
    SubmissionIsValid(run, cfg, inputs);
    NonceInUse(run, m, key);
    NonceHasNoDot(nonce);
    MessageId.BareOfPrinted(nonce, cfg.domain, key);
    PrintedIsPlain(nonce, cfg.domain, key);
    InsideBrackets(nonce, cfg.domain, key);
  }

  lemma InsideBrackets(nonce: string, domain: string, key: MessageId.Key)
    requires MessageId.NoBrackets(nonce) && MessageId.NoBrackets(domain) && Plain(nonce) && Plain(domain)
    ensures var id := MessageId.Bare(MessageId.Print(nonce, domain, key));
            '<' !in id && Plain(id)
  {
    var printed := MessageId.Print(nonce, domain, key);
    var id := MessageId.Bare(printed);
    MessageId.BareOfPrinted(nonce, domain, key);
    PrintedIsPlain(nonce, domain, key);
    MessageId.DigitsLack(key.file, '<');
    MessageId.DigitsLack(key.piece, '<');
    assert forall i :: 1 <= i < |printed| - 1 ==> printed[i] != '<';
    forall i | 0 <= i < |id|
      ensures id[i] != '<' && id[i] != '\r' && id[i] != '\n'
    {
      assert ("<" + id + ">")[i + 1] == id[i];
      assert printed[i + 1] == id[i];
    }
  }

  lemma {:induction false} InPostedAt(posted: seq<Posted>, a: nat) returns (i: nat)
    requires InPosted(posted, a) > 0
    ensures i < |posted| && posted[i].art == a
  {
    if posted[0].art == a {
      i := 0;
    } else {
      var j := InPostedAt(posted[1..], a);
      i := j + 1;
    }
  }

  /** Two posted articles with the same id are the same article. */
  lemma SameId(run: Config, cfg: Settings, inputs: seq<Input>, m: Main, a: nat, b: nat)
    requires Finished(run, cfg, inputs, m) && a < |m.arts| && b < |m.arts|
    requires WireId(Wire(m.arts[a])) == WireId(Wire(m.arts[b]))
    ensures a == b
  {
    var f, p := PostedReads(run, cfg, inputs, m, a);
    var g, q := PostedReads(run, cfg, inputs, m, b);
    SubmissionIsValid(run, cfg, inputs);
    var n1, n2 := NonceOf(run.nonce, m.exceptions, MessageId.Key(f, p)), NonceOf(run.nonce, m.exceptions, MessageId.Key(g, q));
    NonceInUse(run, m, MessageId.Key(f, p));
    NonceInUse(run, m, MessageId.Key(g, q));
    NonceHasNoDot(n1);
    NonceHasNoDot(n2);
    MessageId.PrintedIsInjective(n1, cfg.domain, MessageId.Key(f, p), n2, cfg.domain, MessageId.Key(g, q));
  }

  /** Whatever the order of the posted articles, fetching the id of an article gives that article. */
  lemma {:induction false} FetchIs(run: Config, cfg: Settings, inputs: seq<Input>, m: Main, a: nat, id: string, from: nat, i: nat)
    requires Finished(run, cfg, inputs, m) && a < |m.arts| && WireId(Wire(m.arts[a])) == Some("<" + id + ">")
    requires from <= i < |m.posted| && m.posted[i].art == a
    ensures Fetch(PostedWires(m.posted)[from..], id) == Some(Wire(m.arts[a]))
    decreases i - from
  {
    var wires := PostedWires(m.posted)[from..];
    assert wires[0] == m.posted[from].wire == Wire(m.arts[m.posted[from].art]);
    if WireId(wires[0]) == Some("<" + id + ">") {
      SameId(run, cfg, inputs, m, m.posted[from].art, a);
    } else {
      assert from != i;
      FetchIs(run, cfg, inputs, m, a, id, from + 1, i);
      assert wires[1..] == PostedWires(m.posted)[from + 1..];
    }
  }

  lemma FetchSegment(run: Config, cfg: Settings, inputs: seq<Input>, m: Main, sizes: map<nat, nat>, f: nat, p: nat)
    requires Finished(run, cfg, inputs, m) && f < |inputs| && p < PiecesOf(cfg, inputs[f])
    ensures var w := Fetch(PostedWires(m.posted), SegmentAt(cfg, sizes, run.nonce, m.exceptions, f, p).id);
            w.Some? && WirePart(w.value) == Some(ChunkPart(cfg, inputs[f], p))
  {
    var a := Offset(cfg, inputs, f) + p;
    ArticleReads(run, cfg, inputs, m, f, p);
    NamedId(run, cfg, inputs, m, sizes, f, p);
    var i := InPostedAt(m.posted, a);
    FetchIs(run, cfg, inputs, m, a, SegmentAt(cfg, sizes, run.nonce, m.exceptions, f, p).id, 0, i);
    assert PostedWires(m.posted)[0..] == PostedWires(m.posted);
  }

  lemma {:induction false} DownloadFrom(run: Config, cfg: Settings, inputs: seq<Input>, m: Main, sizes: map<nat, nat>, f: nat, p: nat)
    requires Finished(run, cfg, inputs, m) && f < |inputs| && p <= PiecesOf(cfg, inputs[f])
    ensures Download(PostedWires(m.posted), SegmentsOf(cfg, sizes, run.nonce, m.exceptions, f, PiecesOf(cfg, inputs[f]))[p..])
         == Some(DataFrom(inputs[f].content, cfg.articleSize, p))
    decreases PiecesOf(cfg, inputs[f]) - p
  {
    var segments := SegmentsOf(cfg, sizes, run.nonce, m.exceptions, f, PiecesOf(cfg, inputs[f]));
    if p < PiecesOf(cfg, inputs[f]) {
      FetchSegment(run, cfg, inputs, m, sizes, f, p);
      DownloadFrom(run, cfg, inputs, m, sizes, f, p + 1);
      assert segments[p..][0] == SegmentAt(cfg, sizes, run.nonce, m.exceptions, f, p);
      assert segments[p..][1..] == segments[p + 1..];
    } else {
      assert segments[p..] == [];
    }
  }

  // ---- The theorem ----------------------------------------------------------------------------------------

  /** The NZB that main writes at the end of a run. */
  function NzbOf(run: Config, cfg: Settings, inputs: seq<Input>, m: Main, epoch: nat): string
    requires cfg.articleSize > 0
  {
    Concat(NzbLines(cfg, inputs, epoch, Contents(cfg, inputs, AllSizes(cfg, inputs), run.nonce, m.exceptions)))
  }

  /** write_nzb, called with what the submission loop recorded and the callbacks left behind, writes that text. */
  method WriteIndex(run: Config, files: Fileset, cfg: Settings, epoch: nat, pieceSizes: seq<map<nat, nat>>, m: Main)
    returns (text: string)
    requires files.Valid() && Matches(files, cfg) && pieceSizes == AllSizes(cfg, files.Inputs())
    ensures text == NzbOf(run, cfg, files.Inputs(), m, epoch)
  {
    text := WriteNzb(files, cfg, epoch, pieceSizes, run.nonce, m.exceptions);
  }

  /** Exit code 0 means that the files can be had back: following the segment ids of the NZB, in order, to
      the articles reported posted, decoding them and joining the data gives every file, byte for byte. */
  lemma {:induction false} FilesComeBack(run: Config, steps: seq<Step>, cfg: Settings, inputs: seq<Input>, epoch: nat, f: nat)
    requires Submits(run, cfg, inputs) && CleanInputs(cfg, inputs)
    requires Legal(run, steps) && After(run, steps).exit == Some(EXIT_OK) && f < |inputs|
    ensures var m := After(run, steps).main;
            var nzb := ReadNzb(NzbOf(run, cfg, inputs, m, epoch));
            |nzb| == |inputs| && Download(PostedWires(m.posted), nzb[f]) == Some(inputs[f].content)
  {
    var m := After(run, steps).main;
    RunFinished(run, steps, cfg, inputs);
    NzbReads(run, cfg, inputs, m, epoch);
    DownloadFrom(run, cfg, inputs, m, AllSizes(cfg, inputs)[f], f, 0);
    DataFromIsRest(inputs[f].content, cfg.articleSize, 0);
    var segments := SegmentsOf(cfg, AllSizes(cfg, inputs)[f], run.nonce, m.exceptions, f, PiecesOf(cfg, inputs[f]));
    assert segments[0..] == segments;
  }

  lemma NzbReads(run: Config, cfg: Settings, inputs: seq<Input>, m: Main, epoch: nat)
    requires Finished(run, cfg, inputs, m)
    ensures ReadNzb(NzbOf(run, cfg, inputs, m, epoch))
         == Contents(cfg, inputs, AllSizes(cfg, inputs), run.nonce, m.exceptions)
  {
    var contents := Contents(cfg, inputs, AllSizes(cfg, inputs), run.nonce, m.exceptions);
    forall f | 0 <= f < |contents|
      ensures CleanSegments(contents[f])
    {
      forall p | 0 <= p < |contents[f]|
        ensures '<' !in contents[f][p].id && Plain(contents[f][p].id)
      {
        NamedId(run, cfg, inputs, m, AllSizes(cfg, inputs)[f], f, p);
      }
    }
    NzbRoundTrip(cfg, inputs, epoch, contents);
  }

  /** A segment and a posted article belong together. */
  ghost predicate Names(s: Segment, wire: string, part: PartInfo)
  {
    && WireId(wire) == Some("<" + s.id + ">") && WirePart(wire) == Some(part)
    && s.number == part.part && s.bytes == |PartText(part)|
  }

  lemma NamedPosted(run: Config, cfg: Settings, inputs: seq<Input>, m: Main, i: nat) returns (f: nat, p: nat)
    requires Finished(run, cfg, inputs, m) && i < |m.posted|
    ensures f < |inputs| && p < PiecesOf(cfg, inputs[f])
    ensures Names(SegmentAt(cfg, AllSizes(cfg, inputs)[f], run.nonce, m.exceptions, f, p), m.posted[i].wire,
                  ChunkPart(cfg, inputs[f], p))
  {
    f, p := PostedReads(run, cfg, inputs, m, m.posted[i].art);
    NamedId(run, cfg, inputs, m, AllSizes(cfg, inputs)[f], f, p);
    var sizes := AllSizes(cfg, inputs)[f];
    assert sizes[p] == |Chunk(cfg, inputs[f], p)|;
  }

  lemma SegmentIs(cfg: Settings, inputs: seq<Input>, sizes: seq<map<nat, nat>>, nonce: string, exceptions: map<MessageId.Key, string>,
                  f: nat, p: nat)
    requires cfg.articleSize > 0 && |sizes| == |inputs| && f < |inputs| && p < PiecesOf(cfg, inputs[f])
    ensures var contents := Contents(cfg, inputs, sizes, nonce, exceptions);
            && |contents| == |inputs| && |contents[f]| == PiecesOf(cfg, inputs[f])
            && contents[f][p] == SegmentAt(cfg, sizes[f], nonce, exceptions, f, p)
  {
  }

  lemma NzbNames(run: Config, cfg: Settings, inputs: seq<Input>, m: Main, epoch: nat, i: nat) returns (f: nat, p: nat)
    requires Finished(run, cfg, inputs, m) && i < |m.posted|
    ensures var nzb := ReadNzb(NzbOf(run, cfg, inputs, m, epoch));
            && f < |nzb| == |inputs| && p < |nzb[f]| == PiecesOf(cfg, inputs[f])
            && Names(nzb[f][p], m.posted[i].wire, ChunkPart(cfg, inputs[f], p))
  {
    f, p := NamedPosted(run, cfg, inputs, m, i);
    SegmentIs(cfg, inputs, AllSizes(cfg, inputs), run.nonce, m.exceptions, f, p);
    NzbReads(run, cfg, inputs, m, epoch);
  }

  /** And the NZB names exactly what was posted: every article reported posted has its segment, with the
      number of the part and the size of the payload, and there are as many articles as segments. */
  lemma {:induction false} NzbNamesPosted(run: Config, steps: seq<Step>, cfg: Settings, inputs: seq<Input>, epoch: nat, i: nat)
    returns (f: nat, p: nat)
    requires Submits(run, cfg, inputs) && CleanInputs(cfg, inputs)
    requires Legal(run, steps) && After(run, steps).exit == Some(EXIT_OK) && i < |After(run, steps).main.posted|
    ensures var m := After(run, steps).main;
            var nzb := ReadNzb(NzbOf(run, cfg, inputs, m, epoch));
            && |m.posted| == Offset(cfg, inputs, |inputs|)
            && f < |nzb| == |inputs| && p < |nzb[f]| == PiecesOf(cfg, inputs[f])
            && Names(nzb[f][p], m.posted[i].wire, ChunkPart(cfg, inputs[f], p))
  {
    RunFinished(run, steps, cfg, inputs);
    SubmissionIsValid(run, cfg, inputs);
    f, p := NzbNames(run, cfg, inputs, After(run, steps).main, epoch, i);
  }
}
