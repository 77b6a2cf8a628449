/** write_nzb of src/main.cc, and a line-by-line reader of the files it writes. */
module NzbFile {
  import opened Text
  import opened Parts
  import opened PoolModel
  import opened IdTheory
  import opened Nzb
  import opened Submission
  import MessageId

  datatype Segment = Segment(bytes: nat, number: nat, id: string)

  // ---- The text of an NZB -----------------------------------------------------------------------------

  const XML_LINE := "<?xml version=\"1.0\" encoding=\"UTF-8\"?>\n"
  const DOCTYPE_LINE :=
    "<!DOCTYPE nzb PUBLIC " + ("\"-//newzBin//DTD NZB 1.1//END\" " + ("\"http://www.newzbin.com/" + "DTD/nzb/nzb-1.1.dtd\">\n"))
  const NZB_LINE := "<nzb " + ("xmlns=\"http://www.newzbin" + ".com/DTD/2003/nzb\">\n")
  const END_FILE := "</file>\n"

  function FileLine(from: string, epoch: nat, subject: string): string
  {
    "<file poster=\"" + Escaped(from) + "\" date=\"" + Digits(epoch, 10) + "\" subject=\"" + Escaped(subject) + "\">\n"
  }

  function GroupLine(group: string): string
  {
    "<group>" + group + "</group>\n"
  }

  function SegmentFields(s: Segment): (fs: seq<Field>)
    ensures WellFormedFields(fs)
  {
    [Field("<segment bytes=\"", false, s.bytes), Field("\" number=\"", false, s.number)]
  }

  const SEGMENT_TAIL := "</segment>\n"

  function SegmentLine(s: Segment): string
  {
    Print(SegmentFields(s)) + ("\">" + (s.id + SEGMENT_TAIL))
  }

  lemma SegmentLineIs(s: Segment)
    ensures SegmentLine(s)
         == "<segment bytes=\"" + Digits(s.bytes, 10) + "\" number=\"" + Digits(s.number, 10) + "\">" + s.id + SEGMENT_TAIL
  {
    var fs := SegmentFields(s);
    PrintStep(fs, 1);
    PrintStep(fs, 0);
    SegmentTexts("<segment bytes=\"" + Digits(s.bytes, 10), "\" number=\"" + Digits(s.number, 10), "\">", s.id, SEGMENT_TAIL);
  }

  lemma SegmentTexts(a: string, b: string, c: string, d: string, e: string)
    ensures (a + (b + "")) + (c + (d + e)) == a + b + c + d + e
  {
  }

  function GroupLines(groups: seq<string>): seq<string>
  {
    seq(|groups|, i requires 0 <= i < |groups| => GroupLine(groups[i]))
  }

  function SegmentLines(segments: seq<Segment>): seq<string>
  {
    seq(|segments|, i requires 0 <= i < |segments| => SegmentLine(segments[i]))
  }

  function FileLines(from: string, epoch: nat, subject: string, groups: seq<string>, segments: seq<Segment>): seq<string>
  {
    [FileLine(from, epoch, subject)]
    + (FileHead(groups) + (SegmentLines(segments) + ["</segments>\n", END_FILE]))
  }

  function FileHead(groups: seq<string>): seq<string>
  {
    ["<groups>\n"] + GroupLines(groups) + ["</groups>\n", "<segments>\n"]
  }

  /** The segment of piece p of file f: the size recorded at submission, and the id that was last given to
      the piece, without its angle brackets. */
  function SegmentAt(cfg: Settings, sizes: map<nat, nat>, nonce: string, exceptions: map<Key, string>, f: nat, p: nat): Segment
  {
    var key := MessageId.Key(f, p);
    Segment(if p in sizes then sizes[p] else 0, p + 1,
            MessageId.Bare(MessageId.Print(NonceOf(nonce, exceptions, key), cfg.domain, key)))
  }

  function SegmentsOf(cfg: Settings, sizes: map<nat, nat>, nonce: string, exceptions: map<Key, string>, f: nat, n: nat): seq<Segment>
  {
    seq(n, p requires 0 <= p => SegmentAt(cfg, sizes, nonce, exceptions, f, p))
  }

  /** What the NZB says, as data: the segments of every file. */
  function Contents(cfg: Settings, inputs: seq<Input>, sizes: seq<map<nat, nat>>, nonce: string, exceptions: map<Key, string>)
    : seq<seq<Segment>>
    requires cfg.articleSize > 0 && |sizes| == |inputs|
  {
    seq(|inputs|, f requires 0 <= f < |inputs| => SegmentsOf(cfg, sizes[f], nonce, exceptions, f, PiecesOf(cfg, inputs[f])))
  }

  function FileAt(cfg: Settings, inputs: seq<Input>, epoch: nat, contents: seq<seq<Segment>>, f: nat): seq<string>
    requires cfg.articleSize > 0 && f < |inputs| == |contents|
  {
    FileLines(cfg.from, epoch, Subject(cfg.subject, f, |inputs|, inputs[f].name, 0, PiecesOf(cfg, inputs[f])),
              cfg.groups, contents[f])
  }

  /** The lines of the file entries. */
  function Entries(cfg: Settings, inputs: seq<Input>, epoch: nat, contents: seq<seq<Segment>>): seq<seq<string>>
    requires cfg.articleSize > 0 && |inputs| == |contents|
  {
    seq(|inputs|, f requires 0 <= f < |inputs| => FileAt(cfg, inputs, epoch, contents, f))
  }

  /** All lines from entry f on. */
  function LinesFrom(entries: seq<seq<string>>, f: nat): seq<string>
    requires f <= |entries|
    decreases |entries| - f
  {
    if f == |entries| then [] else entries[f] + LinesFrom(entries, f + 1)
  }

  const END_NZB := "</nzb>\n"

  function NzbLines(cfg: Settings, inputs: seq<Input>, epoch: nat, contents: seq<seq<Segment>>): seq<string>
    requires cfg.articleSize > 0 && |inputs| == |contents|
  {
    [XML_LINE, DOCTYPE_LINE, NZB_LINE, "\n"] + (LinesFrom(Entries(cfg, inputs, epoch, contents), 0) + [END_NZB])
  }

  // ---- write_nzb ----------------------------------------------------------------------------------------

  lemma ConcatOne(ls: seq<string>, l: string)
    ensures Concat(ls + [l]) == Concat(ls) + l
  {
    ConcatAppend(ls, [l]);
    assert [l][1..] == [];
  }

  method WriteGroups(groups: seq<string>, before: string) returns (stream: string)
    ensures stream == before + Concat(["<groups>\n"] + GroupLines(groups) + ["</groups>\n"])
  {
    stream := before + "<groups>\n";
    ConcatOne([], "<groups>\n");
    assert [] + ["<groups>\n"] == ["<groups>\n"] + GroupLines(groups)[..0];
    for i := 0 to |groups|
      invariant stream == before + Concat(["<groups>\n"] + GroupLines(groups)[..i])
    {
      ghost var ls := ["<groups>\n"] + GroupLines(groups)[..i];
      ConcatOne(ls, GroupLine(groups[i]));
      assert ["<groups>\n"] + GroupLines(groups)[..i + 1] == ls + [GroupLine(groups[i])];
      Assoc(before, Concat(ls), GroupLine(groups[i]));
      stream := stream + ("<group>" + groups[i] + "</group>\n");
    }
    assert GroupLines(groups)[..|groups|] == GroupLines(groups);
    ConcatOne(["<groups>\n"] + GroupLines(groups), "</groups>\n");
    Assoc(before, Concat(["<groups>\n"] + GroupLines(groups)), "</groups>\n");
    stream := stream + "</groups>\n";
  }

  lemma SegmentsStep(segments: seq<Segment>, i: nat, before: string)
    requires i < |segments|
    ensures (before + Concat(SegmentLines(segments)[..i])) + SegmentLine(segments[i])
         == before + Concat(SegmentLines(segments)[..i + 1])
  {
    var ls := SegmentLines(segments)[..i];
    ConcatOne(ls, SegmentLine(segments[i]));
    assert SegmentLines(segments)[..i + 1] == ls + [SegmentLine(segments[i])];
    Assoc(before, Concat(ls), SegmentLine(segments[i]));
  }

  method WriteSegments(cfg: Settings, sizes: map<nat, nat>, nonce: string, exceptions: map<Key, string>, f: nat, pieces: nat,
                       before: string)
    returns (stream: string)
    requires forall p :: 0 <= p < pieces ==> p in sizes
    ensures stream == before + Concat(SegmentLines(SegmentsOf(cfg, sizes, nonce, exceptions, f, pieces)))
  {
    ghost var segments := SegmentsOf(cfg, sizes, nonce, exceptions, f, pieces);
    stream := before;
    assert before + "" == before;
    for pieceIndex := 0 to pieces
      invariant stream == before + Concat(SegmentLines(segments)[..pieceIndex])
    {
      var key := MessageId.Key(f, pieceIndex);
      var actualNonce := if key in exceptions then exceptions[key] else nonce;
      var msgId := MessageId.Print(actualNonce, cfg.domain, key);
      msgId := ReplaceAll(msgId, '<', "");
      msgId := ReplaceAll(msgId, '>', "");
      assert segments[pieceIndex] == Segment(sizes[pieceIndex], pieceIndex + 1, msgId);
      SegmentLineIs(segments[pieceIndex]);
      SegmentsStep(segments, pieceIndex, before);
      stream := stream + ("<segment bytes=\"" + Digits(sizes[pieceIndex], 10) + "\" number=\"" + Digits(pieceIndex + 1, 10)
                          + "\">" + msgId + "</segment>\n");
    }
    assert SegmentLines(segments)[..pieces] == SegmentLines(segments);
  }

  /** Every piece has its size on record; the source dereferences the iterator that finds it. */
  ghost predicate Recorded(cfg: Settings, input: Input, sizes: map<nat, nat>)
    requires cfg.articleSize > 0
  {
    forall p :: 0 <= p < PiecesOf(cfg, input) ==> p in sizes
  }

  ghost predicate AllRecorded(cfg: Settings, inputs: seq<Input>, pieceSizes: seq<map<nat, nat>>)
    requires cfg.articleSize > 0
  {
    |pieceSizes| == |inputs| && forall i :: 0 <= i < |inputs| ==> Recorded(cfg, inputs[i], pieceSizes[i])
  }

  /** One turn of the outer loop. */
  method WriteFile(files: Fileset, cfg: Settings, epoch: nat, pieceSizes: seq<map<nat, nat>>, nonce: string,
                   exceptions: map<Key, string>, i: nat, before: string)
    returns (stream: string)
    requires files.Valid() && Matches(files, cfg) && i < |files.files| == |pieceSizes|
    requires Recorded(cfg, files.Inputs()[i], pieceSizes[i])
    ensures var inputs := files.Inputs();
            stream == before + Concat(FileAt(cfg, inputs, epoch, Contents(cfg, inputs, pieceSizes, nonce, exceptions), i))
  {
    ghost var inputs := files.Inputs();
    var pieces := files.filehandles[i].numParts;
    assert pieces == PiecesOf(cfg, inputs[i]);
    var subject := Subject(cfg.subject, i, |files.files|, files.files[i], 0, pieces);
    var from := GhettoXmlEscape(cfg.from);
    var escaped := GhettoXmlEscape(subject);
    var open := "<file poster=\"" + from + "\" date=\"" + Digits(epoch, 10) + "\" subject=\"" + escaped + "\">\n";
    stream := before + open;
    stream := WriteGroups(cfg.groups, stream);
    stream := stream + "<segments>\n";
    stream := WriteSegments(cfg, pieceSizes[i], nonce, exceptions, i, pieces, stream);
    stream := stream + "</segments>\n";
    stream := stream + "</file>\n";
    ghost var segments := Contents(cfg, inputs, pieceSizes, nonce, exceptions)[i];
    assert open == FileLine(cfg.from, epoch, subject);
    FileText(before, open, ["<groups>\n"] + GroupLines(cfg.groups) + ["</groups>\n"], SegmentLines(segments));
    assert FileHead(cfg.groups) == (["<groups>\n"] + GroupLines(cfg.groups) + ["</groups>\n"]) + ["<segments>\n"];
  }

  lemma FileText(before: string, open: string, groups: seq<string>, segments: seq<string>)
    ensures ((((before + open) + Concat(groups)) + "<segments>\n") + Concat(segments)) + "</segments>\n" + "</file>\n"
         == before + Concat([open] + ((groups + ["<segments>\n"]) + (segments + ["</segments>\n", END_FILE])))
  {
    var e, g, t, u := "<segments>\n", Concat(groups), Concat(segments), "</segments>\n";
    ConsLine(open, (groups + [e]) + (segments + [u, END_FILE]));
    ConcatAppend(groups + [e], segments + [u, END_FILE]);
    ConcatOne(groups, e);
    ConcatTwo(segments, u, END_FILE);
    SevenParts(before, open, g, e, t, u, END_FILE);
  }

  lemma ConcatTwo(ls: seq<string>, a: string, b: string)
    ensures Concat(ls + [a, b]) == Concat(ls) + (a + b)
  {
    ConcatOne(ls, a);
    ConcatOne(ls + [a], b);
    assert (ls + [a]) + [b] == ls + [a, b];
    Assoc(Concat(ls), a, b);
  }

  lemma SevenParts(a: string, b: string, c: string, d: string, e: string, f: string, g: string)
    ensures ((((a + b) + c) + d) + e) + f + g == a + (b + ((c + d) + (e + (f + g))))
  {
    assert ((((a + b) + c) + d) + e) + f + g == (a + b) + ((c + d) + (e + (f + g))) by {
      Assoc(((a + b) + c) + d, e, f);
      Assoc(((a + b) + c) + d, e + f, g);
      Assoc(e, f, g);
      Assoc(a + b, c, d);
      Assoc(a + b, c + d, e + (f + g));
    }
    Assoc(a, b, (c + d) + (e + (f + g)));
  }

  lemma HeadText()
    ensures Concat([XML_LINE, DOCTYPE_LINE, NZB_LINE, "\n"]) == ((XML_LINE + DOCTYPE_LINE) + NZB_LINE) + "\n"
  {
    var x, d, n := XML_LINE, DOCTYPE_LINE, NZB_LINE;
    ConcatOne([x, d, n], "\n");
    ConcatOne([x, d], n);
    ConcatOne([x], d);
    ConcatOne([], x);
    assert [] + [x] == [x] && [x] + [d] == [x, d] && [x, d] + [n] == [x, d, n] && [x, d, n] + ["\n"] == [x, d, n, "\n"];
  }

  lemma EntryAt(cfg: Settings, inputs: seq<Input>, epoch: nat, contents: seq<seq<Segment>>, f: nat)
    requires cfg.articleSize > 0 && f < |inputs| == |contents|
    ensures Entries(cfg, inputs, epoch, contents)[f] == FileAt(cfg, inputs, epoch, contents, f)
  {
  }

  lemma EntryStep(entries: seq<seq<string>>, f: nat, stream: string)
    requires f < |entries|
    ensures (stream + Concat(entries[f])) + Concat(LinesFrom(entries, f + 1)) == stream + Concat(LinesFrom(entries, f))
  {
    ConcatAppend(entries[f], LinesFrom(entries, f + 1));
    Assoc(stream, Concat(entries[f]), Concat(LinesFrom(entries, f + 1)));
  }

  lemma LastLine(head: seq<string>, all: seq<string>)
    ensures (Concat(head) + Concat(all)) + END_NZB == Concat(head + (all + [END_NZB]))
  {
    ConcatOne(all, END_NZB);
    ConcatAppend(head, all + [END_NZB]);
    Assoc(Concat(head), Concat(all), END_NZB);
  }

  method WriteHead() returns (stream: string)
    ensures stream == Concat([XML_LINE, DOCTYPE_LINE, NZB_LINE, "\n"])
  {
    stream := XML_LINE;
    stream := stream + DOCTYPE_LINE;
    stream := stream + NZB_LINE;
    stream := stream + "\n";
    HeadText();
  }

  /** The outer loop. */
  method WriteEntries(files: Fileset, cfg: Settings, epoch: nat, pieceSizes: seq<map<nat, nat>>, nonce: string,
                      exceptions: map<Key, string>, before: string)
    returns (stream: string)
    requires files.Valid() && Matches(files, cfg) && AllRecorded(cfg, files.Inputs(), pieceSizes)
    ensures var inputs := files.Inputs();
            stream == before + Concat(LinesFrom(Entries(cfg, inputs, epoch, Contents(cfg, inputs, pieceSizes, nonce, exceptions)), 0))
  {
    ghost var inputs := files.Inputs();
    ghost var entries := Entries(cfg, inputs, epoch, Contents(cfg, inputs, pieceSizes, nonce, exceptions));
    stream := before;
    for i := 0 to |files.files|
      invariant files.Valid() && files.Inputs() == inputs
      invariant stream + Concat(LinesFrom(entries, i)) == before + Concat(LinesFrom(entries, 0))
    {
      EntryStep(entries, i, stream);
      EntryAt(cfg, inputs, epoch, Contents(cfg, inputs, pieceSizes, nonce, exceptions), i);
      assert Recorded(cfg, inputs[i], pieceSizes[i]);
      stream := WriteFile(files, cfg, epoch, pieceSizes, nonce, exceptions, i, stream);
    }
    assert stream + "" == stream;
  }

  method WriteNzb(files: Fileset, cfg: Settings, epoch: nat, pieceSizes: seq<map<nat, nat>>, nonce: string,
                  exceptions: map<Key, string>)
    returns (stream: string)
    requires files.Valid() && Matches(files, cfg) && AllRecorded(cfg, files.Inputs(), pieceSizes)
    ensures var inputs := files.Inputs();
            stream == Concat(NzbLines(cfg, inputs, epoch, Contents(cfg, inputs, pieceSizes, nonce, exceptions)))
  {
    ghost var inputs := files.Inputs();
    ghost var entries := Entries(cfg, inputs, epoch, Contents(cfg, inputs, pieceSizes, nonce, exceptions));
    stream := WriteHead();
    stream := WriteEntries(files, cfg, epoch, pieceSizes, nonce, exceptions, stream);
    LastLine([XML_LINE, DOCTYPE_LINE, NZB_LINE, "\n"], LinesFrom(entries, 0));
    stream := stream + "</nzb>\n";
  }

  // ---- Reading an NZB -----------------------------------------------------------------------------------

  /** The lines of a text that ends its lines with a line feed. */
  function LfLines(s: string): seq<string>
    decreases |s|
  {
    var i := MessageId.Find(s, '\n');
    if i == |s| then [] else [s[..i + 1]] + LfLines(s[i + 1..])
  }

  function ParseSegment(l: string): Option<Segment>
  {
    var r := Scan(SegmentFields(Segment(0, 0, "")), l);
    if r.None? || |r.value.0| != 2 then None
    else
      var t := StripPrefix(r.value.1, "\">");
      if t.None? then None
      else
        var i := MessageId.Find(t.value, '<');
        if t.value[i..] == SEGMENT_TAIL then Some(Segment(r.value.0[0], r.value.0[1], t.value[..i])) else None
  }

  /** The segments in front of the end of a file entry. */
  function ReadSegments(ls: seq<string>): seq<Segment>
  {
    if ls == [] || ls[0] == END_FILE then []
    else
      var s := ParseSegment(ls[0]);
      (if s.Some? then [s.value] else []) + ReadSegments(ls[1..])
  }

  function SkipFile(ls: seq<string>): (r: seq<string>)
    ensures |r| <= |ls|
  {
    if ls == [] then [] else if ls[0] == END_FILE then ls[1..] else SkipFile(ls[1..])
  }

  function ReadFiles(ls: seq<string>): seq<seq<Segment>>
    decreases |ls|
  {
    if ls == [] then []
    else if "<file " <= ls[0] then [ReadSegments(ls[1..])] + ReadFiles(SkipFile(ls[1..]))
    else ReadFiles(ls[1..])
  }

  function ReadNzb(text: string): seq<seq<Segment>>
  {
    ReadFiles(LfLines(text))
  }

  predicate IsLfLine(l: string)
  {
    l != "" && l[|l| - 1] == '\n' && forall i :: 0 <= i < |l| - 1 ==> l[i] != '\n'
  }

  predicate AreLfLines(ls: seq<string>)
  {
    ls == [] || (IsLfLine(ls[0]) && AreLfLines(ls[1..]))
  }

  lemma {:induction false} LfLinesOfConcat(ls: seq<string>)
    requires AreLfLines(ls)
    ensures LfLines(Concat(ls)) == ls
  {
    if ls != [] {
      var l, rest := ls[0], Concat(ls[1..]);
      LfLinesOfConcat(ls[1..]);
      var body := l[..|l| - 1];
      assert l + rest == body + (['\n'] + rest);
      MessageId.FindAfter(body, '\n', rest);
      assert (l + rest)[..|l|] == l;
    }
  }

  lemma {:induction false} LfAppend(a: seq<string>, b: seq<string>)
    requires AreLfLines(a) && AreLfLines(b)
    ensures AreLfLines(a + b)
  {
    if a == [] {
      assert a + b == b;
    } else {
      LfAppend(a[1..], b);
      assert (a + b)[1..] == a[1..] + b;
    }
  }

  lemma {:induction false} AllLf(ls: seq<string>)
    requires forall i :: 0 <= i < |ls| ==> IsLfLine(ls[i])
    ensures AreLfLines(ls)
  {
    if ls != [] {
      AllLf(ls[1..]);
    }
  }

  lemma PlainLf(s: string, tail: string)
    requires Plain(s) && IsLfLine(tail)
    ensures IsLfLine(s + tail)
  {
  }

  lemma {:induction false} EscapedIsPlain(s: string)
    requires Plain(s)
    ensures Plain(Escaped(s))
  {
    if s != "" {
      EscapedIsPlain(s[1..]);
      assert Plain(Entity(s[0]));
    }
  }

  lemma FileHeadIsPlain(from: string, epoch: string, subject: string)
    requires Plain(from) && Plain(epoch) && Plain(subject)
    ensures Plain("<file poster=\"" + from + "\" date=\"" + epoch + "\" subject=\"" + subject)
    ensures "<file " <= "<file poster=\"" + from + "\" date=\"" + epoch + "\" subject=\"" + subject
  {
  }

  lemma FileLineIsLf(from: string, epoch: nat, subject: string)
    requires Plain(from) && Plain(subject)
    ensures IsLfLine(FileLine(from, epoch, subject)) && "<file " <= FileLine(from, epoch, subject)
  {
    FileHeadIsPlain(Escaped(from), Digits(epoch, 10), Escaped(subject)) by {
      EscapedIsPlain(from);
      EscapedIsPlain(subject);
      DigitsArePlain(epoch, 10);
    }
    PlainLf("<file poster=\"" + Escaped(from) + "\" date=\"" + Digits(epoch, 10) + "\" subject=\"" + Escaped(subject), "\">\n");
  }

  lemma SegmentLineIsLf(s: Segment)
    requires Plain(s.id)
    ensures IsLfLine(SegmentLine(s))
  {
    PrintIsPlain(SegmentFields(s));
    PlainLf(Print(SegmentFields(s)) + "\">" + s.id, SEGMENT_TAIL);
    assert SegmentLine(s) == (Print(SegmentFields(s)) + "\">" + s.id) + SEGMENT_TAIL;
  }

  lemma TagCloses(rest: string)
    ensures StripPrefix("\">" + rest, "\">") == Some(rest) && NoDigitFirst("\">" + rest)
  {
    assert ("\">" + rest)[..2] == "\">" && ("\">" + rest)[2..] == rest;
  }

  lemma IdEnds(id: string)
    requires '<' !in id
    ensures var i := MessageId.Find(id + SEGMENT_TAIL, '<');
            i == |id| && (id + SEGMENT_TAIL)[..i] == id && (id + SEGMENT_TAIL)[i..] == SEGMENT_TAIL
  {
    MessageId.FindAfter(id, '<', SEGMENT_TAIL[1..]);
    assert ['<'] + SEGMENT_TAIL[1..] == SEGMENT_TAIL;
  }

  lemma ParseSegmentLine(s: Segment)
    requires '<' !in s.id
    ensures ParseSegment(SegmentLine(s)) == Some(s)
  {
    TagCloses(s.id + SEGMENT_TAIL);
    ScanPrinted(SegmentFields(Segment(0, 0, "")), SegmentFields(s), "\">" + (s.id + SEGMENT_TAIL));
    assert Values(SegmentFields(s)) == [s.bytes, s.number];
    IdEnds(s.id);
  }

  /** A line of a file entry that is neither its end nor a segment. */
  predicate Passed(l: string)
  {
    l != END_FILE && ParseSegment(l).None?
  }

  lemma {:induction false} ReadPassed(ls: seq<string>, rest: seq<string>)
    requires forall i :: 0 <= i < |ls| ==> Passed(ls[i])
    ensures ReadSegments(ls + rest) == ReadSegments(rest) && SkipFile(ls + rest) == SkipFile(rest)
  {
    if ls == [] {
      assert ls + rest == rest;
    } else {
      assert (ls + rest)[1..] == ls[1..] + rest;
      ReadPassed(ls[1..], rest);
    }
  }

  lemma SegmentLinesCons(s: Segment, segments: seq<Segment>)
    ensures SegmentLines([s] + segments) == [SegmentLine(s)] + SegmentLines(segments)
  {
  }

  lemma {:induction false} ReadSegmentLines(segments: seq<Segment>, rest: seq<string>)
    requires forall i :: 0 <= i < |segments| ==> '<' !in segments[i].id
    ensures ReadSegments(SegmentLines(segments) + rest) == segments + ReadSegments(rest)
    ensures SkipFile(SegmentLines(segments) + rest) == SkipFile(rest)
  {
    if segments == [] {
      assert SegmentLines(segments) + rest == rest;
    } else {
      var s, ss := segments[0], segments[1..];
      assert segments == [s] + ss;
      ReadSegmentLines(ss, rest);
      ReadOneSegment(s, SegmentLines(ss) + rest);
      SegmentLinesCons(s, ss);
      Assoc([SegmentLine(s)], SegmentLines(ss), rest);
      Assoc([s], ss, ReadSegments(rest));
    }
  }

  lemma ReadOneSegment(s: Segment, more: seq<string>)
    requires '<' !in s.id
    ensures ReadSegments([SegmentLine(s)] + more) == [s] + ReadSegments(more)
    ensures SkipFile([SegmentLine(s)] + more) == SkipFile(more)
  {
    ParseSegmentLine(s);
    NotTheEnd(s);
    assert ([SegmentLine(s)] + more)[1..] == more;
  }

  lemma NotTheEnd(s: Segment)
    ensures SegmentLine(s) != END_FILE
  {
    SegmentLineIs(s);
    assert SegmentLine(s)[1] == 's';
  }

  lemma NotSegment(l: string, i: nat)
    requires i < 16 && i < |l| && l[i] != "<segment bytes=\""[i]
    ensures ParseSegment(l).None?
  {
    PrefixAgrees("<segment bytes=\"", l);
  }

  lemma HeadIsPassed(groups: seq<string>)
    ensures forall i :: 0 <= i < |FileHead(groups)| ==> Passed(FileHead(groups)[i])
  {
    var ls := FileHead(groups);
    NotSegment("<groups>\n", 1);
    NotSegment("</groups>\n", 1);
    NotSegment("<segments>\n", 8);
    forall i | 0 <= i < |ls|
      ensures Passed(ls[i])
    {
      if 1 <= i <= |groups| {
        assert ls[i] == GroupLine(groups[i - 1]);
        assert ls[i][1] == 'g';
        NotSegment(ls[i], 1);
      }
    }
  }

  lemma ReadTail(rest: seq<string>)
    ensures ReadSegments(["</segments>\n", END_FILE] + rest) == [] && SkipFile(["</segments>\n", END_FILE] + rest) == rest
  {
    NotSegment("</segments>\n", 1);
    assert ["</segments>\n", END_FILE] + rest == ["</segments>\n"] + ([END_FILE] + rest);
    ReadPassed(["</segments>\n"], [END_FILE] + rest);
    assert ([END_FILE] + rest)[1..] == rest;
  }

  /** Reading one file entry. */
  lemma ReadFileLines(from: string, epoch: nat, subject: string, groups: seq<string>, segments: seq<Segment>, rest: seq<string>)
    requires Plain(from) && Plain(subject)
    requires forall i :: 0 <= i < |segments| ==> '<' !in segments[i].id
    ensures ReadFiles(FileLines(from, epoch, subject, groups, segments) + rest) == [segments] + ReadFiles(rest)
  {
    var tail := ["</segments>\n", END_FILE];
    var body := FileHead(groups) + (SegmentLines(segments) + (tail + rest));
    HeadIsPassed(groups);
    ReadPassed(FileHead(groups), SegmentLines(segments) + (tail + rest));
    ReadSegmentLines(segments, tail + rest);
    ReadTail(rest);
    assert segments + [] == segments;
    FileLineIsLf(from, epoch, subject);
    OpenFile(FileLine(from, epoch, subject), body);
    Assoc([FileLine(from, epoch, subject)], FileHead(groups) + (SegmentLines(segments) + tail), rest);
    Assoc(FileHead(groups), SegmentLines(segments) + tail, rest);
    Assoc(SegmentLines(segments), tail, rest);
  }

  lemma OpenFile(l: string, body: seq<string>)
    requires "<file " <= l
    ensures ReadFiles([l] + body) == [ReadSegments(body)] + ReadFiles(SkipFile(body))
  {
    assert ([l] + body)[1..] == body;
  }

  ghost predicate CleanSegments(segments: seq<Segment>)
  {
    forall i :: 0 <= i < |segments| ==> '<' !in segments[i].id && Plain(segments[i].id)
  }

  /** Settings and names that fit on one line. */
  ghost predicate OneLine(cfg: Settings, inputs: seq<Input>)
  {
    && Plain(cfg.from) && Plain(cfg.subject) && Plain(cfg.domain)
    && (forall i :: 0 <= i < |cfg.groups| ==> Plain(cfg.groups[i]))
    && (forall i :: 0 <= i < |inputs| ==> Plain(inputs[i].name))
  }

  lemma SubjectIsPlain(subject: string, f: nat, numFiles: nat, name: string, p: nat, numPieces: nat)
    requires Plain(subject) && Plain(name)
    ensures Plain(Subject(subject, f, numFiles, name, p, numPieces))
  {
    DigitsArePlain(f + 1, 10);
    DigitsArePlain(numFiles, 10);
    DigitsArePlain(p + 1, 10);
    DigitsArePlain(numPieces, 10);
    PlainParts(subject + " [" + Digits(f + 1, 10) + "/" + Digits(numFiles, 10) + "] - \"" + name,
               "\" yEnc (" + Digits(p + 1, 10) + "/" + Digits(numPieces, 10) + ")");
    assert Subject(subject, f, numFiles, name, p, numPieces)
        == (subject + " [" + Digits(f + 1, 10) + "/" + Digits(numFiles, 10) + "] - \"" + name)
         + ("\" yEnc (" + Digits(p + 1, 10) + "/" + Digits(numPieces, 10) + ")");
  }

  lemma PlainParts(a: string, b: string)
    requires Plain(a) && Plain(b)
    ensures Plain(a + b)
  {
  }

  lemma GroupLinesAreLf(groups: seq<string>)
    requires forall i :: 0 <= i < |groups| ==> Plain(groups[i])
    ensures AreLfLines(FileHead(groups))
  {
    var ls := FileHead(groups);
    forall i | 0 <= i < |ls|
      ensures IsLfLine(ls[i])
    {
      if 1 <= i <= |groups| {
        PlainLf("<group>" + groups[i - 1], "</group>\n");
        assert ls[i] == ("<group>" + groups[i - 1]) + "</group>\n";
      }
    }
    AllLf(ls);
  }

  lemma FileLinesAreLf(from: string, epoch: nat, subject: string, groups: seq<string>, segments: seq<Segment>)
    requires Plain(from) && Plain(subject) && CleanSegments(segments)
    requires forall i :: 0 <= i < |groups| ==> Plain(groups[i])
    ensures AreLfLines(FileLines(from, epoch, subject, groups, segments))
  {
    FileLineIsLf(from, epoch, subject);
    GroupLinesAreLf(groups);
    forall i | 0 <= i < |segments|
      ensures IsLfLine(SegmentLines(segments)[i])
    {
      SegmentLineIsLf(segments[i]);
    }
    AllLf(SegmentLines(segments));
    AllLf(["</segments>\n", END_FILE]);
    LfAppend(SegmentLines(segments), ["</segments>\n", END_FILE]);
    LfAppend(FileHead(groups), SegmentLines(segments) + ["</segments>\n", END_FILE]);
    AllLf([FileLine(from, epoch, subject)]);
    LfAppend([FileLine(from, epoch, subject)], FileHead(groups) + (SegmentLines(segments) + ["</segments>\n", END_FILE]));
  }

  lemma EndLines()
    ensures AreLfLines([END_NZB]) && ReadFiles([END_NZB]) == []
  {
    AllLf([END_NZB]);
    assert END_NZB[1] == '/';
    PrefixAgrees("<file ", END_NZB);
    assert [END_NZB] + [] == [END_NZB];
    SkipOne(END_NZB, []);
  }

  lemma ReadOneFile(cfg: Settings, inputs: seq<Input>, epoch: nat, contents: seq<seq<Segment>>, f: nat, rest: seq<string>)
    requires cfg.articleSize > 0 && f < |inputs| == |contents| && OneLine(cfg, inputs) && CleanSegments(contents[f])
    requires AreLfLines(rest)
    ensures AreLfLines(FileAt(cfg, inputs, epoch, contents, f) + rest)
    ensures ReadFiles(FileAt(cfg, inputs, epoch, contents, f) + rest) == [contents[f]] + ReadFiles(rest)
  {
    var subject := Subject(cfg.subject, f, |inputs|, inputs[f].name, 0, PiecesOf(cfg, inputs[f]));
    SubjectIsPlain(cfg.subject, f, |inputs|, inputs[f].name, 0, PiecesOf(cfg, inputs[f]));
    FileLinesAreLf(cfg.from, epoch, subject, cfg.groups, contents[f]);
    ReadFileLines(cfg.from, epoch, subject, cfg.groups, contents[f], rest);
    LfAppend(FileAt(cfg, inputs, epoch, contents, f), rest);
  }

  lemma EntryReadsBack(cfg: Settings, inputs: seq<Input>, epoch: nat, contents: seq<seq<Segment>>, entries: seq<seq<string>>, f: nat,
                       rest: seq<string>)
    requires cfg.articleSize > 0 && f < |inputs| == |contents| && OneLine(cfg, inputs) && CleanSegments(contents[f])
    requires entries == Entries(cfg, inputs, epoch, contents) && AreLfLines(rest)
    ensures AreLfLines(entries[f] + rest) && ReadFiles(entries[f] + rest) == [contents[f]] + ReadFiles(rest)
  {
    ReadOneFile(cfg, inputs, epoch, contents, f, rest);
  }

  lemma FromStep(entries: seq<seq<string>>, f: nat)
    requires f < |entries|
    ensures LinesFrom(entries, f) + [END_NZB] == entries[f] + (LinesFrom(entries, f + 1) + [END_NZB])
  {
    Assoc(entries[f], LinesFrom(entries, f + 1), [END_NZB]);
  }

  ghost predicate AllClean(contents: seq<seq<Segment>>)
  {
    forall i :: 0 <= i < |contents| ==> CleanSegments(contents[i])
  }

  lemma CleanAt(contents: seq<seq<Segment>>, f: nat)
    requires AllClean(contents) && f < |contents|
    ensures CleanSegments(contents[f]) && contents[f..] == [contents[f]] + contents[f + 1..]
  {
  }

  lemma {:induction false} ReadAllFiles(cfg: Settings, inputs: seq<Input>, epoch: nat, contents: seq<seq<Segment>>,
                                        entries: seq<seq<string>>, f: nat)
    requires cfg.articleSize > 0 && f <= |inputs| == |contents| && OneLine(cfg, inputs)
    requires entries == Entries(cfg, inputs, epoch, contents) && AllClean(contents)
    ensures var ls := LinesFrom(entries, f) + [END_NZB];
            AreLfLines(ls) && ReadFiles(ls) == contents[f..]
    decreases |entries| - f
  {
    if f == |entries| {
      EndLines();
      assert [] + [END_NZB] == [END_NZB] && contents[f..] == [];
    } else {
      ReadAllFiles(cfg, inputs, epoch, contents, entries, f + 1);
      CleanAt(contents, f);
      EntryReadsBack(cfg, inputs, epoch, contents, entries, f, LinesFrom(entries, f + 1) + [END_NZB]);
      FromStep(entries, f);
    }
  }

  /** A reader of the NZB recovers, for every file and in order, the size, the number and the id of every
      segment that was written. */
  lemma NzbRoundTrip(cfg: Settings, inputs: seq<Input>, epoch: nat, contents: seq<seq<Segment>>)
    requires cfg.articleSize > 0 && |inputs| == |contents| && OneLine(cfg, inputs)
    requires AllClean(contents)
    ensures ReadNzb(Concat(NzbLines(cfg, inputs, epoch, contents))) == contents
  {
    var head := [XML_LINE, DOCTYPE_LINE, NZB_LINE, "\n"];
    var entries := Entries(cfg, inputs, epoch, contents);
    var rest := LinesFrom(entries, 0) + [END_NZB];
    ReadAllFiles(cfg, inputs, epoch, contents, entries, 0);
    HeadLines();
    LfAppend(head, rest);
    LfLinesOfConcat(head + rest);
    ReadHead(rest);
    assert contents[0..] == contents;
  }

  lemma DoctypeLine()
    ensures IsLfLine(DOCTYPE_LINE) && !("<file " <= DOCTYPE_LINE)
  {
    PlainLf("\"http://www.newzbin.com/", "DTD/nzb/nzb-1.1.dtd\">\n");
    PlainLf("\"-//newzBin//DTD NZB 1.1//END\" ", "\"http://www.newzbin.com/" + "DTD/nzb/nzb-1.1.dtd\">\n");
    PlainLf("<!DOCTYPE nzb PUBLIC ", "\"-//newzBin//DTD NZB 1.1//END\" " + ("\"http://www.newzbin.com/" + "DTD/nzb/nzb-1.1.dtd\">\n"));
    assert DOCTYPE_LINE[1] == '!';
    PrefixAgrees("<file ", DOCTYPE_LINE);
  }

  lemma NzbLine()
    ensures IsLfLine(NZB_LINE) && !("<file " <= NZB_LINE)
  {
    PlainLf("xmlns=\"http://www.newzbin", ".com/DTD/2003/nzb\">\n");
    PlainLf("<nzb ", "xmlns=\"http://www.newzbin" + ".com/DTD/2003/nzb\">\n");
    assert NZB_LINE[1] == 'n';
    PrefixAgrees("<file ", NZB_LINE);
  }

  lemma XmlLine()
    ensures IsLfLine(XML_LINE) && !("<file " <= XML_LINE)
  {
    assert XML_LINE[1] == '?';
    PrefixAgrees("<file ", XML_LINE);
  }

  lemma HeadLines()
    ensures AreLfLines([XML_LINE, DOCTYPE_LINE, NZB_LINE, "\n"])
    ensures !("<file " <= XML_LINE) && !("<file " <= DOCTYPE_LINE) && !("<file " <= NZB_LINE) && !("<file " <= "\n")
  {
    XmlLine();
    DoctypeLine();
    NzbLine();
    PrefixAgrees("<file ", "\n");
    AllLf([XML_LINE, DOCTYPE_LINE, NZB_LINE, "\n"]);
  }

  lemma ReadHead(rest: seq<string>)
    ensures ReadFiles([XML_LINE, DOCTYPE_LINE, NZB_LINE, "\n"] + rest) == ReadFiles(rest)
  {
    HeadLines();
    SkipFour(XML_LINE, DOCTYPE_LINE, NZB_LINE, "\n", rest);
  }

  lemma SkipFour(a: string, b: string, c: string, d: string, rest: seq<string>)
    requires !("<file " <= a) && !("<file " <= b) && !("<file " <= c) && !("<file " <= d)
    ensures ReadFiles([a, b, c, d] + rest) == ReadFiles(rest)
  {
    SkipOne(a, [b, c, d] + rest);
    SkipOne(b, [c, d] + rest);
    SkipOne(c, [d] + rest);
    SkipOne(d, rest);
    assert [a, b, c, d] + rest == [a] + ([b, c, d] + rest);
    assert [b, c, d] + rest == [b] + ([c, d] + rest);
    assert [c, d] + rest == [c] + ([d] + rest);
  }

  lemma SkipOne(l: string, rest: seq<string>)
    requires !("<file " <= l)
    ensures ReadFiles([l] + rest) == ReadFiles(rest)
  {
    assert ([l] + rest)[1..] == rest;
  }
}
