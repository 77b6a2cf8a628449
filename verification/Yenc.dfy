/** src/yenc: the yEnc line encoder, and a decoder that follows the encoding rules of the
    yEnc draft 1.3. */
module Yenc {
  import opened Text

  /** Addition on unsigned char: modulo 256. */
  function Shift(c: char, amount: int): byte
  {
    ((c as int + amount) % 256) as char
  }

  /** `lineLength - 1` is size_t arithmetic in the source; for lineLength == 0 it wraps to a value no
      position reaches, as -1 does here. */
  predicate NeedsEscaping(c: byte, linepos: nat, lineLength: nat)
  {
    || c == '\0'
    || c == '\r'
    || c == '\n'
    || c == '='
    || (c == ' ' && (linepos == 0 || linepos == lineLength - 1))
    || (c == '\t' && (linepos == 0 || linepos == lineLength - 1))
    || (c == '.' && linepos == 0)
  }

  /** What one input byte becomes at a given position of the line: itself, or an escape pair. */
  function Symbol(b: byte, linepos: nat, lineLength: nat): (sy: string)
    ensures 1 <= |sy| <= 2
  {
    var e := Shift(b, 42);
    if NeedsEscaping(e, linepos, lineLength) then ['=', Shift(e, 64)] else [e]
  }

  /** The rest of the current line, from position `linepos` on, without its CRLF. */
  function LineBody(d: seq<byte>, linepos: nat, lineLength: nat): string
  {
    if d == [] then ""
    else
      var sy := Symbol(d[0], linepos, lineLength);
      if linepos + |sy| >= lineLength then sy else sy + LineBody(d[1..], linepos + |sy|, lineLength)
  }

  /** How many input bytes the rest of the current line takes. */
  function LineTake(d: seq<byte>, linepos: nat, lineLength: nat): (k: nat)
    ensures k <= |d| && (d != [] ==> k > 0)
  {
    if d == [] then 0
    else
      var sy := Symbol(d[0], linepos, lineLength);
      if linepos + |sy| >= lineLength then 1 else 1 + LineTake(d[1..], linepos + |sy|, lineLength)
  }

  function BlockLines(d: seq<byte>, lineLength: nat): seq<string>
  {
    if d == [] then []
    else [LineBody(d, 0, lineLength) + CRLF] + BlockLines(d[LineTake(d, 0, lineLength)..], lineLength)
  }

  function Block(d: seq<byte>, lineLength: nat): string
  {
    Concat(BlockLines(d, lineLength))
  }

  /** What is still to come behind the byte at `it`, whose symbol ends at position p of the line. */
  function Behind(d: seq<byte>, it: nat, p: nat, lineLength: nat): string
    requires it < |d|
  {
    if p >= lineLength then "" else LineBody(d[it + 1..], p, lineLength)
  }

  /** One turn of the encoder loop: what was still to come is the symbol of this byte and the rest. */
  lemma LineStep(d: seq<byte>, it: nat, linepos: nat, lineLength: nat, res: string)
    requires it < |d|
    ensures var sy := Symbol(d[it], linepos, lineLength);
            var p := linepos + |sy|;
            && (res + sy) + Behind(d, it, p, lineLength) == res + LineBody(d[it..], linepos, lineLength)
            && LineTake(d[it..], linepos, lineLength)
            == 1 + (if p >= lineLength then 0 else LineTake(d[it + 1..], p, lineLength))
  {
    assert d[it..][1..] == d[it + 1..];
    var sy := Symbol(d[it], linepos, lineLength);
    Assoc(res, sy, Behind(d, it, linepos + |sy|, lineLength));
  }
  /** The body of the loop: one byte, itself or an escape pair. */
  method EncodeByte(b: byte, pos: nat, lineLength: nat, before: string) returns (linepos: nat, res: string)
    ensures res == before + Symbol(b, pos, lineLength) && linepos == pos + |Symbol(b, pos, lineLength)|
  {
    var e := Shift(b, 42);
    res := before;
    if NeedsEscaping(e, pos, lineLength) {
      res := res + ['='];
      res := res + [Shift(e, 64)];
      linepos := pos + 2;
    } else {
      res := res + [e];
      linepos := pos + 1;
    }
  }

  lemma EndsLine(out: string, body: string)
    ensures ((out + body) + ['\r']) + ['\n'] == out + (body + CRLF)
  {
  }

  /** encode_next_line: `first` is an index into d, `last` is |d|; the output iterator appends to `out`. */
  method EncodeNextLine(d: seq<byte>, first: nat, out: string, lineLength: nat) returns (next: nat, res: string)
    requires first <= |d|
    ensures next == first + LineTake(d[first..], 0, lineLength)
    ensures res == out + (LineBody(d[first..], 0, lineLength) + CRLF)
  {
    var linepos: nat := 0;
    var it := first;
    res := out;
    ghost var done, line := "", LineBody(d[first..], 0, lineLength);
    while it < |d|
      invariant first <= it <= |d| && res == out + done
      invariant done + LineBody(d[it..], linepos, lineLength) == line
      invariant it + LineTake(d[it..], linepos, lineLength) == first + LineTake(d[first..], 0, lineLength)
    {
      LineStep(d, it, linepos, lineLength, done);
      Assoc(out, done, Symbol(d[it], linepos, lineLength));
      done := done + Symbol(d[it], linepos, lineLength);
      linepos, res := EncodeByte(d[it], linepos, lineLength, res);
      it := it + 1;
      if linepos >= lineLength {
        assert done == line;
        break;
      }
    }
    assert done == line;
    EndsLine(out, done);
    res := res + ['\r'];
    res := res + ['\n'];
    next := it;
  }

  /** encode_block */
  method EncodeBlock(d: seq<byte>, out: string, lineLength: nat) returns (res: string)
    ensures res == out + Block(d, lineLength)
  {
    var first := 0;
    res := out;
    ghost var written := "";
    while first < |d|
      invariant first <= |d|
      invariant res == out + written
      invariant Block(d, lineLength) == written + Block(d[first..], lineLength)
      decreases |d| - first
    {
      ghost var line := LineBody(d[first..], 0, lineLength) + CRLF;
      ghost var take := LineTake(d[first..], 0, lineLength);
      assert d[first..][take..] == d[first + take..];
      assert Block(d[first..], lineLength) == line + Block(d[first + take..], lineLength);
      first, res := EncodeNextLine(d, first, res, lineLength);
      assert written + (line + Block(d[first..], lineLength)) == (written + line) + Block(d[first..], lineLength);
      assert out + written + line == out + (written + line);
      written := written + line;
    }
    assert d[first..] == [];
  }

  // ---- Decoding --------------------------------------------------------------------------

  /** The decoder of the yEnc draft: CR and LF are dropped, '=' announces an escaped character. */
  function Decode(s: string): seq<byte>
  {
    if s == "" then []
    else if s[0] == '\r' || s[0] == '\n' then Decode(s[1..])
    else if s[0] == '=' then
      if |s| == 1 then [] else [Shift(s[1], -64 - 42)] + Decode(s[2..])
    else [Shift(s[0], -42)] + Decode(s[1..])
  }

  lemma ShiftBack(b: byte, k: int)
    ensures Shift(Shift(b, k), -k) == b
    ensures Shift(Shift(b, k), -k - 42) == Shift(b, -42)
  {
  }

  lemma DecodeSymbol(b: byte, linepos: nat, lineLength: nat, rest: string)
    ensures Decode(Symbol(b, linepos, lineLength) + rest) == [b] + Decode(rest)
  {
    var e, sy := Shift(b, 42), Symbol(b, linepos, lineLength);
    ShiftBack(b, 42);
    ShiftBack(e, 64);
    assert (sy + rest)[|sy|..] == rest;
    assert sy[0] == '=' <==> NeedsEscaping(e, linepos, lineLength);
  }

  lemma TakeOneMore(d: seq<byte>, k: nat, rest: seq<byte>)
    requires k < |d|
    ensures [d[0]] + (d[1..][..k] + rest) == d[..k + 1] + rest
  {
  }

  lemma {:induction false} DecodeLine(d: seq<byte>, linepos: nat, lineLength: nat, rest: string)
    ensures Decode(LineBody(d, linepos, lineLength) + rest) == d[..LineTake(d, linepos, lineLength)] + Decode(rest)
  {
    if d == [] {
      assert LineBody(d, linepos, lineLength) + rest == rest;
    } else {
      var sy := Symbol(d[0], linepos, lineLength);
      if linepos + |sy| >= lineLength {
        DecodeSymbol(d[0], linepos, lineLength, rest);
      } else {
        var tail := LineBody(d[1..], linepos + |sy|, lineLength);
        DecodeLine(d[1..], linepos + |sy|, lineLength, rest);
        DecodeSymbol(d[0], linepos, lineLength, tail + rest);
        Assoc(sy, tail, rest);
        TakeOneMore(d, LineTake(d[1..], linepos + |sy|, lineLength), Decode(rest));
      }
    }
  }

  lemma DecodeFullLine(d: seq<byte>, lineLength: nat, tail: string)
    ensures Decode((LineBody(d, 0, lineLength) + CRLF) + tail) == d[..LineTake(d, 0, lineLength)] + Decode(tail)
  {
    var body := LineBody(d, 0, lineLength);
    assert (CRLF + tail)[1..][1..] == tail;
    assert (body + CRLF) + tail == body + (CRLF + tail);
    DecodeLine(d, 0, lineLength, CRLF + tail);
  }

  lemma BlockUnfold(d: seq<byte>, lineLength: nat)
    requires d != []
    ensures Block(d, lineLength)
         == (LineBody(d, 0, lineLength) + CRLF) + Block(d[LineTake(d, 0, lineLength)..], lineLength)
  {
  }

  /** Decoding a block that is followed by anything gives the data, then the rest decoded. */
  lemma {:induction false} DecodeBlock(d: seq<byte>, lineLength: nat, rest: string)
    ensures Decode(Block(d, lineLength) + rest) == d + Decode(rest)
    decreases |d|
  {
    if d == [] {
      assert Block(d, lineLength) + rest == rest;
    } else {
      var take := LineTake(d, 0, lineLength);
      var tail := Block(d[take..], lineLength) + rest;
      DecodeBlock(d[take..], lineLength, rest);
      DecodeFullLine(d, lineLength, tail);
      BlockUnfold(d, lineLength);
      Assoc(LineBody(d, 0, lineLength) + CRLF, Block(d[take..], lineLength), rest);
      SplitAt(d, take, Decode(rest));
    }
  }

  /** The round trip: every byte sequence, every line length. */
  lemma RoundTrip(d: seq<byte>, lineLength: nat)
    ensures Decode(Block(d, lineLength)) == d
  {
    DecodeBlock(d, lineLength, "");
    assert Block(d, lineLength) + "" == Block(d, lineLength);
  }

  // ---- The shape of the lines --------------------------------------------------------------

  predicate Blank(c: char)
  {
    c == ' ' || c == '\t'
  }

  /** The bytes of a line are raw characters and escape pairs: '=' only opens a pair, nothing in it
      is NUL, CR or LF. */
  predicate WellEscaped(s: string)
  {
    s == "" ||
    if s[0] == '=' then |s| >= 2 && SafeChar(s[1]) && s[1] != 'y' && WellEscaped(s[2..])
    else SafeChar(s[0]) && WellEscaped(s[1..])
  }

  predicate SafeChar(c: char)
  {
    c != '\0' && c != '\r' && c != '\n' && c != '=' && c as int < 256
  }

  /** The text ends in a raw (unescaped) blank. */
  predicate EndsInRawBlank(s: string)
  {
    s != "" &&
    if s[0] == '=' && |s| >= 2 then EndsInRawBlank(s[2..])
    else if |s| == 1 then Blank(s[0]) else EndsInRawBlank(s[1..])
  }

  /** What a reader may rely on in every line of a block. */
  predicate GoodStart(body: string)
  {
    body != "" && body[0] != '.' && !Blank(body[0]) && !("=y" <= body)
  }

  lemma SymbolShape(b: byte, linepos: nat, lineLength: nat)
    ensures var sy := Symbol(b, linepos, lineLength);
            && (if sy[0] == '=' then |sy| == 2 && SafeChar(sy[1]) && sy[1] != 'y' else |sy| == 1 && SafeChar(sy[0]))
            && (linepos == 0 ==> sy[0] != '.' && !Blank(sy[0]))
            && (|sy| == 1 && linepos + 1 == lineLength ==> !Blank(sy[0]))
  {
    var e := Shift(b, 42);
    assert e == '\0' || e == '\r' || e == '\n' || e == '=' || e == ' ' || e == '\t' || e == '.' ==>
        SafeChar(Shift(e, 64)) && Shift(e, 64) != 'y';
  }

  lemma {:induction false} LineBodyEscapes(d: seq<byte>, linepos: nat, lineLength: nat)
    requires d != []
    ensures var body := LineBody(d, linepos, lineLength);
            && WellEscaped(body) && body != ""
            && (linepos == 0 ==> GoodStart(body))
  {
    var sy := Symbol(d[0], linepos, lineLength);
    SymbolShape(d[0], linepos, lineLength);
    if linepos + |sy| < lineLength && |d| > 1 {
      LineBodyEscapes(d[1..], linepos + |sy|, lineLength);
      var tail := LineBody(d[1..], linepos + |sy|, lineLength);
      assert (sy + tail)[|sy|..] == tail;
    } else {
      assert LineBody(d, linepos, lineLength) == sy;
    }
  }

  lemma {:induction false} LineBodyExtent(d: seq<byte>, linepos: nat, lineLength: nat)
    requires d != [] && linepos < lineLength
    ensures var body := LineBody(d, linepos, lineLength);
            && 1 <= |body| && linepos + |body| <= lineLength + 1
            && (LineTake(d, linepos, lineLength) < |d| ==> linepos + |body| >= lineLength)
            && (linepos + |body| >= lineLength ==> !EndsInRawBlank(body))
  {
    var sy := Symbol(d[0], linepos, lineLength);
    SymbolShape(d[0], linepos, lineLength);
    if linepos + |sy| < lineLength && |d| > 1 {
      LineBodyExtent(d[1..], linepos + |sy|, lineLength);
      var tail := LineBody(d[1..], linepos + |sy|, lineLength);
      assert (sy + tail)[|sy|..] == tail;
    } else {
      assert LineBody(d, linepos, lineLength) == sy;
    }
  }

  /** A well escaped text contains no CR or LF, so with its CRLF it is one line. */
  lemma WellEscapedIsPlain(s: string)
    requires WellEscaped(s)
    ensures Plain(s) && '\0' !in s
  {
    if s != "" {
      var k := if s[0] == '=' then 2 else 1;
      WellEscapedIsPlain(s[k..]);
      assert s == s[..k] + s[k..];
    }
  }

  /** The shape theorem over whole blocks. */
  ghost predicate GoodLines(ls: seq<string>, lineLength: nat)
  {
    forall i :: 0 <= i < |ls| ==> GoodLine(ls[i], i + 1 == |ls|, lineLength)
  }

  ghost predicate GoodLine(line: string, last: bool, lineLength: nat)
  {
    && IsLine(line)
    && |line| >= 3
    && var body := line[..|line| - 2];
       && WellEscaped(body) && GoodStart(body)
       && |body| <= lineLength + 1
       && (!last ==> lineLength <= |body| && !EndsInRawBlank(body))
  }

  lemma {:induction false} BlockShape(d: seq<byte>, lineLength: nat)
    requires lineLength >= 1
    ensures GoodLines(BlockLines(d, lineLength), lineLength)
    decreases |d|
  {
    if d != [] {
      var take, body := LineTake(d, 0, lineLength), LineBody(d, 0, lineLength);
      LineBodyEscapes(d, 0, lineLength);
      LineBodyExtent(d, 0, lineLength);
      WellEscapedIsPlain(body);
      PlainHasNoLine(body);
      TerminatedIsLine(body);
      assert (body + CRLF)[..|body|] == body;
      BlockShape(d[take..], lineLength);
      var ls := BlockLines(d, lineLength);
      forall i | 0 <= i < |ls|
        ensures GoodLine(ls[i], i + 1 == |ls|, lineLength)
      {
        if i > 0 {
          assert ls[i] == BlockLines(d[take..], lineLength)[i - 1];
        }
      }
    }
  }

  // ---- The size of a block -----------------------------------------------------------------

  /** How many bytes of one line are escaped. */
  function LineEscapes(d: seq<byte>, linepos: nat, lineLength: nat): nat
  {
    if d == [] then 0
    else
      var sy := Symbol(d[0], linepos, lineLength);
      |sy| - 1 + if linepos + |sy| >= lineLength then 0 else LineEscapes(d[1..], linepos + |sy|, lineLength)
  }

  function BlockEscapes(d: seq<byte>, lineLength: nat): nat
  {
    if d == [] then 0
    else LineEscapes(d, 0, lineLength) + BlockEscapes(d[LineTake(d, 0, lineLength)..], lineLength)
  }

  lemma {:induction false} LineSize(d: seq<byte>, linepos: nat, lineLength: nat)
    requires linepos < lineLength
    ensures |LineBody(d, linepos, lineLength)| == LineTake(d, linepos, lineLength) + LineEscapes(d, linepos, lineLength)
    ensures LineEscapes(d, linepos, lineLength) <= LineTake(d, linepos, lineLength) <= lineLength - linepos
  {
    if d != [] {
      var sy := Symbol(d[0], linepos, lineLength);
      if linepos + |sy| < lineLength {
        LineSize(d[1..], linepos + |sy|, lineLength);
      }
    }
  }

  /** The exact size of a block: its bytes, one more for every escape, two for every line. Every line
      takes at most L bytes and every line but the last at least half as many, rounded up. */
  lemma {:induction false} BlockSize(d: seq<byte>, lineLength: nat)
    requires lineLength >= 1
    ensures var n, k := |d|, |BlockLines(d, lineLength)|;
            var half := (lineLength + 1) / 2;
            && |Block(d, lineLength)| == n + BlockEscapes(d, lineLength) + 2 * k
            && BlockEscapes(d, lineLength) <= n
            && n <= lineLength * k
            && (k > 0 ==> half * (k - 1) < n)
    decreases |d|
  {
    if d != [] {
      var take := LineTake(d, 0, lineLength);
      var half := (lineLength + 1) / 2;
      BlockUnfold(d, lineLength);
      LineSize(d, 0, lineLength);
      assert take < |d| ==> half <= take by {
        LineBodyExtent(d, 0, lineLength);
      }
      BlockSize(d[take..], lineLength);
      Spread(lineLength, half, |BlockLines(d[take..], lineLength)|);
    }
  }

  lemma Spread(l: nat, h: nat, k: nat)
    ensures l * (k + 1) == l * k + l && h * k == h * (k - 1) + h
  {
  }

  /** ceil(n/L) <= lines <= ceil(n/ceil(L/2)), hence the worst-case size. */
  lemma BlockBound(d: seq<byte>, lineLength: nat)
    requires lineLength >= 1
    ensures var n, k, half := |d|, |BlockLines(d, lineLength)|, (lineLength + 1) / 2;
            && (n + lineLength - 1) / lineLength <= k <= (n + half - 1) / half
            && |Block(d, lineLength)| <= 2 * n + 2 * ((n + half - 1) / half)
  {
    BlockSize(d, lineLength);
    var n, k, half := |d|, |BlockLines(d, lineLength)|, (lineLength + 1) / 2;
    CeilAtMost(n, lineLength, k);
    if k > 0 {
      CeilAtLeast(n, half, k);
    }
  }

  lemma CeilAtMost(n: nat, l: nat, k: nat)
    requires l > 0 && n <= l * k
    ensures (n + l - 1) / l <= k
  {
    MulMono(k + 1, (n + l - 1) / l, l);
  }

  lemma CeilAtLeast(n: nat, h: nat, k: nat)
    requires h > 0 && k > 0 && h * (k - 1) < n
    ensures k <= (n + h - 1) / h
  {
    MulMono((n + h - 1) / h, k - 1, h);
  }

  lemma MulMono(a: int, b: int, l: nat)
    ensures a <= b ==> a * l <= b * l
  {
  }
}
