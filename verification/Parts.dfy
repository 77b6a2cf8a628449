/** src/util/yencgenerator.cc: cutting a file into parts and wrapping each part in its =ybegin,
    =ypart and =yend lines; a reader of such parts; the parts of a file as a tiling of it. */
module Parts {
  import opened Text
  import opened Yenc

  /** What the three keyword lines of a part say, and the data between them. */
  datatype PartInfo = PartInfo(
    part: nat, total: nat, line: nat, size: nat, name: string,
    begin: nat, end: nat,
    data: seq<byte>,
    endSize: nat, endPart: nat, crc: nat)

  function BeginFields(p: PartInfo): (fs: seq<Field>)
    ensures WellFormedFields(fs)
  {
    [Field("=ybegin part=", false, p.part), Field(" total=", false, p.total), Field(" line=", false, p.line),
     Field(" size=", false, p.size)]
  }

  function PartFields(p: PartInfo): (fs: seq<Field>)
    ensures WellFormedFields(fs)
  {
    [Field("=ypart begin=", false, p.begin), Field(" end=", false, p.end)]
  }

  function EndFields(p: PartInfo): (fs: seq<Field>)
    ensures WellFormedFields(fs)
  {
    [Field("=yend size=", false, p.endSize), Field(" part=", false, p.endPart), Field(" pcrc32=", true, p.crc)]
  }

  const NAME_LABEL := " name="

  function BeginLine(p: PartInfo): string
  {
    (Print(BeginFields(p)) + (NAME_LABEL + p.name)) + CRLF
  }

  function PartLine(p: PartInfo): string
  {
    (Print(PartFields(p)) + "") + CRLF
  }

  function EndLine(p: PartInfo): string
  {
    (Print(EndFields(p)) + "") + CRLF
  }

  function PartLines(p: PartInfo): seq<string>
  {
    [BeginLine(p)] + ([PartLine(p)] + (BlockLines(p.data, p.line) + [EndLine(p)]))
  }

  /** The payload of one article. */
  function PartText(p: PartInfo): string
  {
    Concat(PartLines(p))
  }

  lemma PartTextIs(p: PartInfo)
    ensures PartText(p) == BeginLine(p) + (PartLine(p) + (Block(p.data, p.line) + EndLine(p)))
  {
    ConsLine(BeginLine(p), [PartLine(p)] + (BlockLines(p.data, p.line) + [EndLine(p)]));
    ConsLine(PartLine(p), BlockLines(p.data, p.line) + [EndLine(p)]);
    ConcatAppend(BlockLines(p.data, p.line), [EndLine(p)]);
    assert [EndLine(p)][1..] == [];
  }

  lemma BeginLineIs(p: PartInfo)
    ensures BeginLine(p)
         == (("=ybegin part=" + Digits(p.part, 10)) + (" total=" + Digits(p.total, 10)) + (" line=" + Digits(p.line, 10))
             + (" size=" + Digits(p.size, 10)) + (" name=" + p.name)) + CRLF
  {
    var fs := BeginFields(p);
    PrintStep(fs, 3);
    PrintStep(fs, 2);
    PrintStep(fs, 1);
    PrintStep(fs, 0);
    BeginTexts("=ybegin part=" + Digits(p.part, 10), " total=" + Digits(p.total, 10), " line=" + Digits(p.line, 10),
            " size=" + Digits(p.size, 10), " name=" + p.name);
  }

  lemma BeginTexts(a: string, b: string, c: string, d: string, e: string)
    ensures (a + (b + (c + (d + "")))) + e == a + b + c + d + e
  {
  }

  lemma PrintStep(fs: seq<Field>, i: nat)
    requires i < |fs|
    ensures Print(fs[i..]) == fs[i].tag + Digits(fs[i].value, fs[i].Base()) + Print(fs[i + 1..])
    ensures fs[|fs|..] == [] && fs[0..] == fs
  {
    assert fs[i..][1..] == fs[i + 1..];
  }

  lemma PartLineIs(p: PartInfo)
    ensures PartLine(p) == ("=ypart begin=" + Digits(p.begin, 10) + " end=" + Digits(p.end, 10)) + CRLF
  {
    var fs := PartFields(p);
    PrintStep(fs, 1);
    PrintStep(fs, 0);
  }

  lemma EndLineIs(p: PartInfo)
    ensures EndLine(p)
         == ("=yend size=" + Digits(p.endSize, 10) + " part=" + Digits(p.endPart, 10) + " pcrc32=" + Digits(p.crc, 16)) + CRLF
  {
    var fs := EndFields(p);
    PrintStep(fs, 2);
    PrintStep(fs, 1);
    PrintStep(fs, 0);
  }

  // ---- The parts of a file ------------------------------------------------------------------

  function NumParts(fileSize: nat, articleSize: nat): nat
    requires articleSize > 0
  {
    fileSize / articleSize + if fileSize % articleSize != 0 then 1 else 0
  }

  function Min(a: nat, b: nat): nat
  {
    if a < b then a else b
  }

  /** The bytes a successful read of `articleSize` bytes at `offset` delivers. */
  function Slice(content: seq<byte>, offset: nat, articleSize: nat): (r: seq<byte>)
    ensures |r| <= articleSize
  {
    content[Min(offset, |content|)..Min(offset + articleSize, |content|)]
  }

  /** The bytes get_part(i) reads from a stream that has failed or not. */
  function Delivered(content: seq<byte>, articleSize: nat, i: nat, failed: bool): seq<byte>
  {
    if failed then [] else Slice(content, i * articleSize, articleSize)
  }

  /** The read of part i delivers less than an article. */
  predicate IsShort(content: seq<byte>, articleSize: nat, i: nat)
  {
    |Slice(content, i * articleSize, articleSize)| < articleSize
  }

  /** What part `i` says when its read delivered `data`. */
  function PartOf(name: string, fileSize: nat, articleSize: nat, lineSize: nat, i: nat, data: seq<byte>, crc: nat): PartInfo
    requires articleSize > 0
  {
    PartInfo(i + 1, NumParts(fileSize, articleSize), lineSize, fileSize, name,
             i * articleSize + 1, i * articleSize + |data|, data, |data|, i + 1, crc)
  }

  /** std::ifstream as get_part uses it: a short read sets the fail state, and in the fail state seeking
      does nothing and reading delivers nothing. */
  class InputFile {
    const content: seq<byte>
    var pos: nat
    var failed: bool
    var eof: bool

    constructor (content: seq<byte>)
      ensures this.content == content && pos == 0 && !failed && !eof
    {
      this.content := content;
      pos, failed, eof := 0, false, false;
    }

    method Seek(offset: nat)
      modifies this
      ensures failed == old(failed) && !eof
      ensures pos == if old(failed) then old(pos) else offset
    {
      eof := false;
      if !failed {
        pos := offset;
      }
    }

    method Read(n: nat) returns (buf: seq<byte>)
      modifies this
      ensures buf == if old(failed || eof) then [] else Slice(content, old(pos), n)
      ensures pos == old(pos) + |buf|
      ensures failed == (old(failed || eof) || |buf| < n)
      ensures eof == (old(eof) || (!old(failed) && |buf| < n))
    {
      if failed || eof {
        failed := true;
        buf := [];
      } else {
        buf := Slice(content, pos, n);
        pos := pos + |buf|;
        if |buf| < n {
          eof, failed := true, true;
        }
      }
    }
  }

  class YencGenerator {
    const name: string
    const articleSize: nat
    const lineSize: nat
    const crc: seq<byte> -> nat
    const fileSize: nat
    var numParts: nat
    const file: InputFile

    ghost predicate Valid()
      reads this
    {
      articleSize > 0 && fileSize == |file.content| && numParts == NumParts(fileSize, articleSize)
    }

    /** The file exists, is regular and opens; a zero article size would divide by zero. `crc` stands for
        boost::crc_32_type. */
    constructor (name: string, content: seq<byte>, articleSize: nat, lineSize: nat, crc: seq<byte> -> nat)
      requires articleSize > 0
      ensures Valid() && fresh(file) && file.content == content && !file.failed
      ensures this.name == name && this.articleSize == articleSize && this.lineSize == lineSize && this.crc == crc
    {
      this.name := name;
      this.articleSize := articleSize;
      this.lineSize := lineSize;
      this.crc := crc;
      file := new InputFile(content);
      fileSize := |content|;
      var parts := |content| / articleSize;
      if |content| % articleSize != 0 {
        parts := parts + 1;
      }
      numParts := parts;
    }

    /** The =ybegin line. */
    method WriteBegin(i: nat) returns (line: string)
      requires Valid()
      ensures forall data: seq<byte>, c: nat :: line == BeginLine(PartOf(name, fileSize, articleSize, lineSize, i, data, c))
    {
      line := (("=ybegin part=" + Digits(i + 1, 10)) + (" total=" + Digits(numParts, 10)) + (" line=" + Digits(lineSize, 10))
               + (" size=" + Digits(fileSize, 10)) + (" name=" + name)) + CRLF;
      forall data: seq<byte>, c: nat
        ensures line == BeginLine(PartOf(name, fileSize, articleSize, lineSize, i, data, c))
      {
        BeginLineIs(PartOf(name, fileSize, articleSize, lineSize, i, data, c));
      }
    }

    /** get_part, in any state of the stream. */
    method GetPart(i: nat) returns (ret: string)
      requires Valid()
      modifies file
      ensures Valid()
      ensures var data := Delivered(file.content, articleSize, i, old(file.failed));
              && ret == PartText(PartOf(name, fileSize, articleSize, lineSize, i, data, crc(data)))
              && file.failed == (old(file.failed) || |data| < articleSize)
    {
      var offset := i * articleSize;
      file.Seek(offset);
      var buf := file.Read(articleSize);
      var bytesRead := |buf|;
      ghost var p := PartOf(name, fileSize, articleSize, lineSize, i, buf, crc(buf));

      var begin := WriteBegin(i);
      ret := begin;
      var range := ("=ypart begin=" + Digits(offset + 1, 10) + " end=" + Digits(offset + bytesRead, 10)) + CRLF;
      PartLineIs(p);
      ret := ret + range;
      ret := EncodeBlock(buf, ret, lineSize);
      var checksum := crc(buf);
      var last := ("=yend size=" + Digits(bytesRead, 10) + " part=" + Digits(i + 1, 10) + " pcrc32=" + Digits(checksum, 16)) + CRLF;
      EndLineIs(p);
      ret := ret + last;
      assert begin == BeginLine(p) && range == PartLine(p) && last == EndLine(p);
      FourParts(BeginLine(p), PartLine(p), Block(buf, lineSize), EndLine(p));
      PartTextIs(p);
    }
  }

  lemma FourParts(a: string, b: string, c: string, d: string)
    ensures ((a + b) + c) + d == a + (b + (c + d))
  {
  }

  /** Part `i` of a file, when its read succeeds. */
  function FilePart(name: string, content: seq<byte>, articleSize: nat, lineSize: nat, i: nat, crc: seq<byte> -> nat): PartInfo
    requires articleSize > 0
  {
    var data := Slice(content, i * articleSize, articleSize);
    PartOf(name, |content|, articleSize, lineSize, i, data, crc(data))
  }

  lemma {:induction false} NumPartsIsCeiling(n: nat, a: nat)
    requires a > 0
    ensures n <= NumParts(n, a) * a
    ensures n > 0 ==> NumParts(n, a) > 0 && (NumParts(n, a) - 1) * a < n
    ensures n == 0 ==> NumParts(n, a) == 0
  {
    var q, r := n / a, n % a;
    assert n == q * a + r;
    assert (q + 1) * a == q * a + a;
  }

  /** Every part before the last one is full; so reading in order, only the last read can fail. */
  lemma {:induction false} OnlyLastIsShort(n: nat, a: nat, i: nat)
    requires a > 0 && i < NumParts(n, a)
    ensures i * a < n
    ensures i + 1 < NumParts(n, a) ==> (i + 1) * a < n && i * a + a < n
  {
    NumPartsIsCeiling(n, a);
    MulMono(i, NumParts(n, a) - 1, a);
    MulMono(i + 1, NumParts(n, a) - 1, a);
    assert (i + 1) * a == i * a + a;
  }

  /** The printed begin and end fields tile 1..size without gap or overlap. */
  lemma {:induction false} PartsTile(name: string, content: seq<byte>, articleSize: nat, lineSize: nat, crc: seq<byte> -> nat, i: nat)
    requires articleSize > 0 && i < NumParts(|content|, articleSize)
    ensures var p := FilePart(name, content, articleSize, lineSize, i, crc);
            && p.part == i + 1 && p.begin <= p.end <= p.size
            && p.data == content[p.begin - 1..p.end]
            && |p.data| == p.endSize == p.end - p.begin + 1
            && (i == 0 ==> p.begin == 1)
            && (p.part == p.total ==> p.end == p.size)
            && (p.part < p.total ==>
                  p.end + 1 == FilePart(name, content, articleSize, lineSize, i + 1, crc).begin && |p.data| == articleSize)
  {
    OnlyLastIsShort(|content|, articleSize, i);
    NumPartsIsCeiling(|content|, articleSize);
    assert (i + 1) * articleSize == i * articleSize + articleSize;
  }

  function DataFrom(content: seq<byte>, articleSize: nat, i: nat): seq<byte>
    requires articleSize > 0
    decreases NumParts(|content|, articleSize) - i
  {
    if i >= NumParts(|content|, articleSize) then []
    else Slice(content, i * articleSize, articleSize) + DataFrom(content, articleSize, i + 1)
  }

  /** The data of the parts, in order, is the file. */
  lemma {:induction false} DataFromIsRest(content: seq<byte>, articleSize: nat, i: nat)
    requires articleSize > 0 && i <= NumParts(|content|, articleSize)
    ensures DataFrom(content, articleSize, i) == content[Min(i * articleSize, |content|)..]
    decreases NumParts(|content|, articleSize) - i
  {
    NumPartsIsCeiling(|content|, articleSize);
    if i < NumParts(|content|, articleSize) {
      DataFromIsRest(content, articleSize, i + 1);
      assert (i + 1) * articleSize == i * articleSize + articleSize;
    }
  }

  // ---- Parts asked for in any order -----------------------------------------------------------

  /** Whether a fresh stream has failed after these parts were asked for, in this order: each get_part leaves
      it failed if it was or if its own read was short. */
  predicate FailedAfter(content: seq<byte>, articleSize: nat, asked: seq<nat>)
  {
    asked != [] &&
    var failed := FailedAfter(content, articleSize, asked[..|asked| - 1]);
    failed || |Delivered(content, articleSize, asked[|asked| - 1], failed)| < articleSize
  }

  lemma {:induction false} FailedIff(content: seq<byte>, articleSize: nat, asked: seq<nat>)
    ensures FailedAfter(content, articleSize, asked)
       <==> exists j :: 0 <= j < |asked| && IsShort(content, articleSize, asked[j])
  {
    if asked != [] {
      var init := asked[..|asked| - 1];
      FailedIff(content, articleSize, init);
      assert forall j :: 0 <= j < |init| ==> init[j] == asked[j];
      if FailedAfter(content, articleSize, init) {
        var j :| 0 <= j < |init| && IsShort(content, articleSize, init[j]);
        assert IsShort(content, articleSize, asked[j]);
      }
    }
  }

  /** Part k of the order carries its full slice. */
  predicate ArrivesWhole(content: seq<byte>, articleSize: nat, asked: seq<nat>, k: nat)
    requires k < |asked|
  {
    Delivered(content, articleSize, asked[k], FailedAfter(content, articleSize, asked[..k]))
    == Slice(content, asked[k] * articleSize, articleSize)
  }

  /** Part j comes before part k although its read is short and part k is not empty. */
  predicate Spoils(content: seq<byte>, articleSize: nat, asked: seq<nat>, j: nat, k: nat)
    requires j < k < |asked|
  {
    IsShort(content, articleSize, asked[j]) && Slice(content, asked[k] * articleSize, articleSize) != []
  }

  /** No part that comes before part k spoils it. */
  ghost predicate Unspoiled(content: seq<byte>, articleSize: nat, asked: seq<nat>, k: nat)
    requires k < |asked|
  {
    forall j :: 0 <= j < k ==> !Spoils(content, articleSize, asked, j, k)
  }

  lemma ArrivesWholeIff(content: seq<byte>, articleSize: nat, asked: seq<nat>, k: nat)
    requires k < |asked|
    ensures ArrivesWhole(content, articleSize, asked, k) <==> Unspoiled(content, articleSize, asked, k)
  {
    var before, slice := asked[..k], Slice(content, asked[k] * articleSize, articleSize);
    FailedIff(content, articleSize, before);
    assert forall j :: 0 <= j < k ==> before[j] == asked[j];
    if FailedAfter(content, articleSize, before) {
      var j :| 0 <= j < k && IsShort(content, articleSize, before[j]);
      assert slice != [] ==> Spoils(content, articleSize, asked, j, k);
    }
  }

  /** Why the order matters, exactly: asked for in a given order from a fresh stream, every part carries its
      full slice if and only if no short part is asked for before another one that is not empty. */
  lemma PartsInOrderIff(content: seq<byte>, articleSize: nat, asked: seq<nat>)
    ensures (forall k :: 0 <= k < |asked| ==> ArrivesWhole(content, articleSize, asked, k))
       <==> (forall k :: 0 <= k < |asked| ==> Unspoiled(content, articleSize, asked, k))
  {
    forall k | 0 <= k < |asked|
      ensures ArrivesWhole(content, articleSize, asked, k) <==> Unspoiled(content, articleSize, asked, k)
    {
      ArrivesWholeIff(content, articleSize, asked, k);
    }
  }

  /** A part from a failed stream has no data, and an end field below its begin field. */
  lemma FailedStreamParts(g: YencGenerator, i: nat)
    requires g.Valid()
    ensures var data := Delivered(g.file.content, g.articleSize, i, true);
            var p := PartOf(g.name, g.fileSize, g.articleSize, g.lineSize, i, data, g.crc(data));
            p.data == [] && p.end + 1 == p.begin && PartText(p) == BeginLine(p) + (PartLine(p) + EndLine(p))
  {
    PartTextIs(PartOf(g.name, g.fileSize, g.articleSize, g.lineSize, i, [], g.crc([])));
  }

  // ---- A reader of parts --------------------------------------------------------------------

  /** Takes lines until the =yend line; returns the text before it, the line, and the rest. */
  function TakeData(s: string): Option<(string, string, string)>
    decreases |s|
  {
    var e := LineEnd(s);
    if e == 0 then None
    else if "=yend " <= s[..e] then Some(("", s[..e], s[e..]))
    else
      var r := TakeData(s[e..]);
      if r.None? then None else Some((s[..e] + r.value.0, r.value.1, r.value.2))
  }

  /** Reads one line and its numbers; the text after the last number, without CRLF, is returned too. */
  function ScanLine(template: seq<Field>, s: string): Option<(seq<nat>, string, string)>
  {
    var e := LineEnd(s);
    if e == 0 then None
    else
      var r := Scan(template, s[..e - 2]);
      if r.None? then None else Some((r.value.0, r.value.1, s[e..]))
  }

  const ANY_PART := PartInfo(0, 0, 0, 0, "", 0, 0, [], 0, 0, 0)

  function ParseBegin(s: string): Option<(nat, nat, nat, nat, string, string)>
  {
    var b := ScanLine(BeginFields(ANY_PART), s);
    if b.None? || |b.value.0| != 4 then None
    else
      var name := StripPrefix(b.value.1, NAME_LABEL);
      if name.None? then None
      else Some((b.value.0[0], b.value.0[1], b.value.0[2], b.value.0[3], name.value, b.value.2))
  }

  function ParseRange(s: string): Option<(nat, nat, string)>
  {
    var y := ScanLine(PartFields(ANY_PART), s);
    if y.None? || |y.value.0| != 2 || y.value.1 != "" then None
    else Some((y.value.0[0], y.value.0[1], y.value.2))
  }

  function ParseData(s: string): Option<(seq<byte>, nat, nat, nat)>
  {
    var d := TakeData(s);
    if d.None? then None
    else
      var e := ScanLine(EndFields(ANY_PART), d.value.1);
      if e.None? || |e.value.0| != 3 || e.value.1 != "" then None
      else Some((Decode(d.value.0), e.value.0[0], e.value.0[1], e.value.0[2]))
  }

  function ParsePart(s: string): Option<PartInfo>
  {
    var b := ParseBegin(s);
    if b.None? then None
    else
      var y := ParseRange(b.value.5);
      if y.None? then None
      else
        var d := ParseData(y.value.2);
        if d.None? then None
        else
          Some(PartInfo(b.value.0, b.value.1, b.value.2, b.value.3, b.value.4,
                        y.value.0, y.value.1, d.value.0, d.value.1, d.value.2, d.value.3))
  }

  lemma ScanPrintedLine(template: seq<Field>, fs: seq<Field>, tail: string, more: string)
    requires WellFormedFields(fs) && SameTemplate(template, fs)
    requires tail == "" || NoDigitFirst(tail)
    requires Plain(tail)
    ensures ScanLine(template, ((Print(fs) + tail) + CRLF) + more) == Some((Values(fs), tail, more))
  {
    var body := Print(fs) + tail;
    PrintIsPlain(fs);
    PlainHasNoLine(body);
    TerminatedIsLine(body);
    LineEndPrefix(body + CRLF, more);
    ScanPrinted(template, fs, tail);
    assert (body + CRLF + more)[..|body|] == body;
    assert (body + CRLF)[|body + CRLF|..] + more == more;
  }

  lemma TakeDataFirst(l: string, tail: string)
    requires IsLine(l)
    ensures TakeData(l + tail)
         == if "=yend " <= l then Some(("", l, tail))
            else if TakeData(tail).None? then None
            else Some((l + TakeData(tail).value.0, TakeData(tail).value.1, TakeData(tail).value.2))
  {
    LineEndPrefix(l, tail);
    assert l[|l|..] + tail == tail;
  }

  predicate GoodDataLine(l: string)
  {
    !("=y" <= l) && !("." <= l) && '\0' !in l
  }

  /** Lines that may stand before the =yend line. */
  ghost predicate NoKeyword(ls: seq<string>)
  {
    forall i :: 0 <= i < |ls| ==> !("=y" <= ls[i])
  }

  lemma {:induction false} TakeDataLines(ls: seq<string>, last: string, rest: string)
    requires AreLines(ls) && NoKeyword(ls) && IsLine(last) && "=yend " <= last
    ensures TakeData(Concat(ls) + (last + rest)) == Some((Concat(ls), last, rest))
  {
    if ls == [] {
      assert Concat(ls) == "" && "" + (last + rest) == last + rest;
      TakeDataFirst(last, rest);
    } else {
      TakeDataLines(ls[1..], last, rest);
      TakeDataFirst(ls[0], Concat(ls[1..]) + (last + rest));
      Assoc(ls[0], Concat(ls[1..]), last + rest);
      assert "=yend "[..2] == "=y";
      assert !("=y" <= ls[0]);
    }
  }

  lemma {:induction false} BlockLinesAreLines(d: seq<byte>, lineLength: nat)
    ensures var ls := BlockLines(d, lineLength);
            AreLines(ls) && (forall i :: 0 <= i < |ls| ==> GoodDataLine(ls[i]))
    decreases |d|
  {
    if d != [] {
      var body := LineBody(d, 0, lineLength);
      LineBodyEscapes(d, 0, lineLength);
      WellEscapedIsPlain(body);
      PlainHasNoLine(body);
      TerminatedIsLine(body);
      BlockLinesAreLines(d[LineTake(d, 0, lineLength)..], lineLength);
      ConsLine(body + CRLF, BlockLines(d[LineTake(d, 0, lineLength)..], lineLength));
      LineIsGood(body);
      var ls := BlockLines(d, lineLength);
      forall i | 0 <= i < |ls|
        ensures GoodDataLine(ls[i])
      {
        assert i > 0 ==> ls[i] == BlockLines(d[LineTake(d, 0, lineLength)..], lineLength)[i - 1];
      }
    }
  }

  lemma LineIsGood(body: string)
    requires WellEscaped(body) && GoodStart(body) && '\0' !in body
    ensures GoodDataLine(body + CRLF)
  {
    var l := body + CRLF;
    assert l[0] == body[0] && (body[0] == '=' ==> l[1] == body[1]);
    PrefixAgrees("=y", l);
  }

  lemma KeywordLineIsLine(fs: seq<Field>, tail: string)
    requires WellFormedFields(fs) && Plain(tail) && fs != []
    ensures IsLine((Print(fs) + tail) + CRLF)
    ensures fs[0].tag <= (Print(fs) + tail) + CRLF
  {
    PrintIsPlain(fs);
    PlainLine(Print(fs) + tail);
  }

  lemma KeywordLinesAreLines(p: PartInfo)
    requires Plain(p.name)
    ensures IsLine(BeginLine(p)) && "=ybegin part=" <= BeginLine(p)
    ensures IsLine(PartLine(p)) && "=ypart begin=" <= PartLine(p)
    ensures IsLine(EndLine(p)) && "=yend size=" <= EndLine(p)
  {
    KeywordLineIsLine(BeginFields(p), NAME_LABEL + p.name);
    KeywordLineIsLine(PartFields(p), "");
    KeywordLineIsLine(EndFields(p), "");
  }

  /** A part consists of whole lines, none of which opens with a dot. */
  lemma PartLinesAreLines(p: PartInfo)
    requires Plain(p.name)
    ensures AreLines(PartLines(p))
    ensures forall i :: 0 <= i < |PartLines(p)| ==> !("." <= PartLines(p)[i])
  {
    var ls := BlockLines(p.data, p.line);
    KeywordLinesAreLines(p);
    BlockLinesAreLines(p.data, p.line);
    assert [EndLine(p)][1..] == [];
    AreLinesAppend(ls, [EndLine(p)]);
    ConsLine(PartLine(p), ls + [EndLine(p)]);
    ConsLine(BeginLine(p), [PartLine(p)] + (ls + [EndLine(p)]));
  }

  lemma BeginRoundTrip(p: PartInfo, more: string)
    requires Plain(p.name)
    ensures ParseBegin(BeginLine(p) + more) == Some((p.part, p.total, p.line, p.size, p.name, more))
  {
    assert Values(BeginFields(p)) == [p.part, p.total, p.line, p.size];
    ScanPrintedLine(BeginFields(ANY_PART), BeginFields(p), NAME_LABEL + p.name, more);
  }

  lemma RangeRoundTrip(p: PartInfo, more: string)
    ensures ParseRange(PartLine(p) + more) == Some((p.begin, p.end, more))
  {
    assert Values(PartFields(p)) == [p.begin, p.end];
    ScanPrintedLine(PartFields(ANY_PART), PartFields(p), "", more);
  }

  lemma DataRoundTrip(p: PartInfo, more: string)
    requires Plain(p.name)
    ensures ParseData(Block(p.data, p.line) + (EndLine(p) + more)) == Some((p.data, p.endSize, p.endPart, p.crc))
  {
    KeywordLinesAreLines(p);
    BlockLinesAreLines(p.data, p.line);
    TakeDataLines(BlockLines(p.data, p.line), EndLine(p), more);
    assert EndLine(p) + "" == EndLine(p);
    assert Values(EndFields(p)) == [p.endSize, p.endPart, p.crc];
    ScanPrintedLine(EndFields(ANY_PART), EndFields(p), "", "");
    RoundTrip(p.data, p.line);
  }

  /** The reader recovers every field of the keyword lines, the name, and the data between them, whatever
      comes after the part. */
  lemma PartRoundTrip(p: PartInfo, more: string)
    requires Plain(p.name)
    ensures ParsePart(PartText(p) + more) == Some(p)
  {
    var end := EndLine(p) + more;
    PartTextIs(p);
    Assoc(BeginLine(p), PartLine(p) + (Block(p.data, p.line) + EndLine(p)), more);
    Assoc(PartLine(p), Block(p.data, p.line) + EndLine(p), more);
    Assoc(Block(p.data, p.line), EndLine(p), more);
    BeginRoundTrip(p, PartLine(p) + (Block(p.data, p.line) + end));
    RangeRoundTrip(p, Block(p.data, p.line) + end);
    DataRoundTrip(p, more);
  }
}
