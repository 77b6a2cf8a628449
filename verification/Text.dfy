/** Bytes, CRLF-terminated lines and numbers as text.

    A C++ char is modelled by a Dafny char; `byte` is the subset a C++ char can hold.
    Lines keep their terminator, as they do in the source. */
module Text {
  datatype Option<+T> = None | Some(value: T)

  type byte = c: char | c as int < 256 witness '\0'

  const CRLF := "\r\n"

  ghost predicate CrlfAt(s: string, i: int)
  {
    0 <= i < |s| - 1 && s[i] == '\r' && s[i + 1] == '\n'
  }

  /** The number of bytes up to and including the first CRLF; 0 when there is none. */
  function LineEnd(s: string): (e: nat)
    ensures e == 0 || 2 <= e <= |s|
  {
    if |s| < 2 then 0
    else if s[0] == '\r' && s[1] == '\n' then 2
    else var e := LineEnd(s[1..]); if e == 0 then 0 else e + 1
  }

  /** A nonempty text whose only CRLF is at its end. */
  predicate IsLine(l: string)
  {
    0 < |l| == LineEnd(l)
  }

  /** The complete lines at the front of s, in order. */
  function Lines(s: string): seq<string>
    decreases |s|
  {
    var e := LineEnd(s);
    if e == 0 then [] else [s[..e]] + Lines(s[e..])
  }

  /** What is left of s after its complete lines. */
  function Residue(s: string): string
    decreases |s|
  {
    var e := LineEnd(s);
    if e == 0 then s else Residue(s[e..])
  }

  function Concat(ls: seq<string>): string
  {
    if ls == [] then "" else ls[0] + Concat(ls[1..])
  }

  predicate AreLines(ls: seq<string>)
  {
    ls == [] || (IsLine(ls[0]) && AreLines(ls[1..]))
  }

  lemma {:induction false} LineEndIsFirst(s: string)
    ensures LineEnd(s) == 0 ==> forall i :: !CrlfAt(s, i)
    ensures LineEnd(s) != 0 ==> CrlfAt(s, LineEnd(s) - 2) && forall i :: i < LineEnd(s) - 2 ==> !CrlfAt(s, i)
  {
    if |s| >= 2 {
      LineEndIsFirst(s[1..]);
      assert forall i :: i > 0 && CrlfAt(s, i) ==> CrlfAt(s[1..], i - 1);
      assert forall i :: CrlfAt(s[1..], i) ==> CrlfAt(s, i + 1);
    }
  }

  lemma LineEndUnique(s: string, e: nat)
    requires 2 <= e <= |s| && CrlfAt(s, e - 2)
    requires forall i :: i < e - 2 ==> !CrlfAt(s, i)
    ensures LineEnd(s) == e
  {
    LineEndIsFirst(s);
    assert CrlfAt(s, LineEnd(s) - 2) || LineEnd(s) == 0;
  }

  /** Bytes that arrive after the first CRLF do not move it. */
  lemma LineEndPrefix(s: string, t: string)
    requires LineEnd(s) != 0
    ensures LineEnd(s + t) == LineEnd(s)
    ensures (s + t)[..LineEnd(s)] == s[..LineEnd(s)]
    ensures (s + t)[LineEnd(s)..] == s[LineEnd(s)..] + t
  {
    var e := LineEnd(s);
    LineEndIsFirst(s);
    assert CrlfAt(s + t, e - 2);
    forall i | i < e - 2
      ensures !CrlfAt(s + t, i)
    {
      assert !CrlfAt(s, i);
    }
    LineEndUnique(s + t, e);
  }

  lemma Assoc<T>(a: seq<T>, b: seq<T>, c: seq<T>)
    ensures (a + b) + c == a + (b + c)
  {
  }

  lemma SplitAt<T>(s: seq<T>, k: nat, rest: seq<T>)
    requires k <= |s|
    ensures s[..k] + (s[k..] + rest) == s + rest
  {
  }

  lemma PrefixAgrees<T>(p: seq<T>, s: seq<T>)
    ensures p <= s ==> |p| <= |s| && forall i :: 0 <= i < |p| ==> s[i] == p[i]
  {
  }

  lemma ConcatAppend(a: seq<string>, b: seq<string>)
    ensures Concat(a + b) == Concat(a) + Concat(b)
  {
    if a == [] {
      assert a + b == b;
    } else {
      assert (a + b)[1..] == a[1..] + b;
      ConcatAppend(a[1..], b);
    }
  }

  lemma LinesOfFirst(l: string, tail: string)
    requires IsLine(l)
    ensures Lines(l + tail) == [l] + Lines(tail)
    ensures Residue(l + tail) == Residue(tail)
  {
    LineEndPrefix(l, tail);
    assert l[|l|..] + tail == tail;
  }

  /** Splitting and joining are inverse: joined lines split back into themselves, in front of anything. */
  lemma {:induction false} LinesOfConcat(ls: seq<string>, rest: string)
    requires AreLines(ls)
    ensures Lines(Concat(ls) + rest) == ls + Lines(rest)
    ensures Residue(Concat(ls) + rest) == Residue(rest)
  {
    var s := Concat(ls) + rest;
    if ls == [] {
      assert s == rest;
    } else {
      var tail := Concat(ls[1..]) + rest;
      assert s == ls[0] + tail;
      assert Lines(tail) == ls[1..] + Lines(rest) && Residue(tail) == Residue(rest) by {
        LinesOfConcat(ls[1..], rest);
      }
      assert Lines(s) == [ls[0]] + Lines(tail) && Residue(s) == Residue(tail) by {
        LinesOfFirst(ls[0], tail);
      }
    }
  }

  lemma FirstLineIsLine(s: string)
    requires LineEnd(s) != 0
    ensures IsLine(s[..LineEnd(s)])
  {
    var e := LineEnd(s);
    var l := s[..e];
    LineEndIsFirst(s);
    assert CrlfAt(l, e - 2);
    forall i | i < e - 2
      ensures !CrlfAt(l, i)
    {
      assert !CrlfAt(s, i);
    }
    LineEndUnique(l, e);
  }

  lemma ConsLine(l: string, ls: seq<string>)
    ensures Concat([l] + ls) == l + Concat(ls)
    ensures AreLines([l] + ls) == (IsLine(l) && AreLines(ls))
  {
    assert ([l] + ls)[1..] == ls;
  }

  lemma {:induction false} FirstLine(s: string)
    requires LineEnd(s) != 0
    ensures var e := LineEnd(s);
            Lines(s) == [s[..e]] + Lines(s[e..]) && Residue(s) == Residue(s[e..]) && s[..e] + s[e..] == s
  {
  }

  /** No byte is lost or invented by splitting. */
  lemma {:induction false} LinesCover(s: string)
    ensures Concat(Lines(s)) + Residue(s) == s
    decreases |s|
  {
    var e := LineEnd(s);
    if e != 0 {
      var l, t := s[..e], s[e..];
      LinesCover(t);
      FirstLine(s);
      ConsLine(l, Lines(t));
      Assoc(l, Concat(Lines(t)), Residue(t));
    }
  }

  /** Every piece is a line, and none is left over. */
  lemma {:induction false} LinesAreLines(s: string)
    ensures AreLines(Lines(s)) && LineEnd(Residue(s)) == 0
    decreases |s|
  {
    var e := LineEnd(s);
    if e != 0 {
      LinesAreLines(s[e..]);
      FirstLineIsLine(s);
      ConsLine(s[..e], Lines(s[e..]));
    }
  }

  /** A text without a CRLF of its own, followed by CRLF, is a line. */
  lemma TerminatedIsLine(s: string)
    requires LineEnd(s) == 0
    ensures IsLine(s + CRLF)
  {
    var l := s + CRLF;
    LineEndIsFirst(s);
    assert CrlfAt(l, |s|);
    forall i | i < |s|
      ensures !CrlfAt(l, i)
    {
      assert !CrlfAt(s, i);
    }
    LineEndUnique(l, |l|);
  }

  // ---- Text without CR and LF ------------------------------------------------------------

  predicate Plain(s: string)
  {
    forall i :: 0 <= i < |s| ==> s[i] != '\r' && s[i] != '\n'
  }

  lemma PlainHasNoLine(s: string)
    requires Plain(s)
    ensures LineEnd(s) == 0
  {
    if |s| >= 2 {
      PlainHasNoLine(s[1..]);
    }
  }

  lemma PlainLine(s: string)
    requires Plain(s)
    ensures IsLine(s + CRLF)
  {
    PlainHasNoLine(s);
    TerminatedIsLine(s);
  }

  lemma {:induction false} AreLinesAppend(a: seq<string>, b: seq<string>)
    requires AreLines(a) && AreLines(b)
    ensures AreLines(a + b)
  {
    if a == [] {
      assert a + b == b;
    } else {
      AreLinesAppend(a[1..], b);
      assert (a + b)[1..] == a[1..] + b;
    }
  }

  // ---- Replacing a character ----------------------------------------------------------------

  /** boost::algorithm::replace_all of a single character. */
  function ReplaceAll(s: string, c: char, text: string): string
  {
    if s == "" then "" else (if s[0] == c then text else [s[0]]) + ReplaceAll(s[1..], c, text)
  }

  lemma {:induction false} ReplaceAppend(a: string, b: string, c: char, text: string)
    ensures ReplaceAll(a + b, c, text) == ReplaceAll(a, c, text) + ReplaceAll(b, c, text)
  {
    if a == "" {
      assert a + b == b;
    } else {
      assert (a + b)[1..] == a[1..] + b;
      ReplaceAppend(a[1..], b, c, text);
    }
  }

  lemma {:induction false} ReplaceAbsent(s: string, c: char, text: string)
    requires c !in s
    ensures ReplaceAll(s, c, text) == s
  {
    if s != "" {
      ReplaceAbsent(s[1..], c, text);
    }
  }

  lemma ReplaceOne(c: char, d: char, text: string)
    ensures ReplaceAll([c], d, text) == if c == d then text else [c]
  {
    assert [c][1..] == "";
  }

  // ---- Numbers ---------------------------------------------------------------------------

  function DigitChar(d: nat): (c: char)
    requires d < 16
    ensures IsDigit(c, 16) && DigitValue(c) == d
    ensures d < 10 ==> IsDigit(c, 10)
  {
    if d < 10 then (d + 48) as char else (d + 55) as char
  }

  predicate IsDigit(c: char, base: nat)
  {
    '0' <= c <= '9' || (base == 16 && 'A' <= c <= 'F')
  }

  function DigitValue(c: char): nat
  {
    if '0' <= c <= '9' then c as int - 48 else if 'A' <= c <= 'F' then c as int - 55 else 0
  }

  predicate AllDigits(s: string, base: nat)
  {
    forall i :: 0 <= i < |s| ==> IsDigit(s[i], base)
  }

  /** What `stream << n` prints, in base 10 or in (upper case) base 16. */
  function Digits(n: nat, base: nat): (s: string)
    requires base == 10 || base == 16
    ensures |s| > 0 && AllDigits(s, base)
  {
    if n < base then [DigitChar(n)] else Digits(n / base, base) + [DigitChar(n % base)]
  }

  function Value(s: string, base: nat): nat
  {
    if s == "" then 0 else Value(s[..|s| - 1], base) * base + DigitValue(s[|s| - 1])
  }

  lemma {:induction false} ValueOfDigits(n: nat, base: nat)
    requires base == 10 || base == 16
    ensures Value(Digits(n, base), base) == n
  {
    var s := Digits(n, base);
    if n < base {
      assert s[..|s| - 1] == "";
    } else {
      ValueOfDigits(n / base, base);
      assert s[..|s| - 1] == Digits(n / base, base);
    }
  }

  /** The length of the run of digits at the front of s. */
  function DigitSpan(s: string, base: nat): (k: nat)
    ensures k <= |s|
  {
    if s == "" || !IsDigit(s[0], base) then 0 else 1 + DigitSpan(s[1..], base)
  }

  /** Reads a number at the front of s; None when there is no digit, as std::stoul throws. */
  function ReadNumber(s: string, base: nat): Option<(nat, string)>
    requires base == 10 || base == 16
  {
    var k := DigitSpan(s, base);
    if k == 0 then None else Some((Value(s[..k], base), s[k..]))
  }

  lemma {:induction false} DigitSpanIs(s: string, k: nat, base: nat)
    requires k <= |s| && AllDigits(s[..k], base)
    requires k == |s| || !IsDigit(s[k], base)
    ensures DigitSpan(s, base) == k
  {
    if k > 0 {
      var span, shorter := s[..k], s[1..][..k - 1];
      assert IsDigit(span[0], base);
      forall i | 0 <= i < k - 1
        ensures IsDigit(shorter[i], base)
      {
        assert IsDigit(span[i + 1], base);
      }
      DigitSpanIs(s[1..], k - 1, base);
    }
  }

  lemma ReadNumberOfDigits(n: nat, base: nat, rest: string)
    requires base == 10 || base == 16
    requires rest == "" || NoDigitFirst(rest)
    ensures ReadNumber(Digits(n, base) + rest, base) == Some((n, rest))
  {
    var ds := Digits(n, base);
    var s := ds + rest;
    assert s[..|ds|] == ds && s[|ds|..] == rest;
    DigitSpanIs(s, |ds|, base);
    ValueOfDigits(n, base);
  }

  // ---- Labelled numbers: printing them and scanning them back -------------------------------

  datatype Field = Field(tag: string, hex: bool, value: nat) {
    function Base(): (b: nat)
      ensures b == 10 || b == 16
    {
      if hex then 16 else 10
    }
  }

  predicate WellFormed(f: Field)
  {
    NoDigitFirst(f.tag) && Plain(f.tag)
  }

  predicate WellFormedFields(fs: seq<Field>)
  {
    forall i :: 0 <= i < |fs| ==> WellFormed(fs[i])
  }

  predicate NoDigitFirst(s: string)
  {
    s != "" && !IsDigit(s[0], 16)
  }

  function Print(fs: seq<Field>): string
  {
    if fs == [] then "" else (fs[0].tag + Digits(fs[0].value, fs[0].Base())) + Print(fs[1..])
  }

  function StripPrefix(s: string, p: string): Option<string>
  {
    if p <= s then Some(s[|p|..]) else None
  }

  /** Matches s against the labels of a template and reads the number after each; the values in the
      template itself are ignored. Returns the numbers and the unread rest. */
  function Scan(template: seq<Field>, s: string): Option<(seq<nat>, string)>
  {
    if template == [] then Some(([], s))
    else
      var r := StripPrefix(s, template[0].tag);
      if r.None? then None
      else
        var n := ReadNumber(r.value, template[0].Base());
        if n.None? then None
        else
          var q := Scan(template[1..], n.value.1);
          if q.None? then None else Some(([n.value.0] + q.value.0, q.value.1))
  }

  function Values(fs: seq<Field>): seq<nat>
  {
    seq(|fs|, i requires 0 <= i < |fs| => fs[i].value)
  }

  predicate SameTemplate(a: seq<Field>, b: seq<Field>)
  {
    |a| == |b| && forall i :: 0 <= i < |a| ==> a[i].tag == b[i].tag && a[i].hex == b[i].hex
  }

  lemma {:induction false} ScanPrinted(template: seq<Field>, fs: seq<Field>, rest: string)
    requires WellFormedFields(fs)
    requires SameTemplate(template, fs)
    requires rest == "" || NoDigitFirst(rest)
    ensures Scan(template, Print(fs) + rest) == Some((Values(fs), rest))
  {
    if fs == [] {
      assert Print(fs) + rest == rest && Values(fs) == [];
    } else {
      var after := Print(fs[1..]) + rest;
      ScanPrinted(template[1..], fs[1..], rest);
      AfterNumber(fs[1..], rest);
      ScanFirst(template, fs[0], after);
      Assoc(fs[0].tag + Digits(fs[0].value, fs[0].Base()), Print(fs[1..]), rest);
      ValuesFirst(fs);
    }
  }

  lemma ValuesFirst(fs: seq<Field>)
    requires fs != []
    ensures Values(fs) == [fs[0].value] + Values(fs[1..])
  {
  }

  lemma ScanFirst(template: seq<Field>, f: Field, after: string)
    requires template != [] && template[0].tag == f.tag && template[0].hex == f.hex
    requires after == "" || NoDigitFirst(after)
    ensures var q := Scan(template[1..], after);
            Scan(template, (f.tag + Digits(f.value, f.Base())) + after)
            == (if q.None? then None else Some(([f.value] + q.value.0, q.value.1)))
  {
    var s := (f.tag + Digits(f.value, f.Base())) + after;
    ReadNumberOfDigits(f.value, f.Base(), after);
    Assoc(f.tag, Digits(f.value, f.Base()), after);
    assert s[|f.tag|..] == Digits(f.value, f.Base()) + after;
  }

  lemma AfterNumber(fs: seq<Field>, rest: string)
    requires WellFormedFields(fs)
    requires rest == "" || NoDigitFirst(rest)
    ensures var after := Print(fs) + rest;
            after == "" || NoDigitFirst(after)
  {
    if fs == [] {
      assert Print(fs) + rest == rest;
    } else {
      assert (Print(fs) + rest)[0] == fs[0].tag[0];
    }
  }

  lemma {:induction false} PrintIsPlain(fs: seq<Field>)
    requires WellFormedFields(fs)
    ensures Plain(Print(fs))
  {
    if fs != [] {
      PrintIsPlain(fs[1..]);
      DigitsArePlain(fs[0].value, fs[0].Base());
    }
  }

  lemma DigitsArePlain(n: nat, base: nat)
    requires base == 10 || base == 16
    ensures Plain(Digits(n, base))
  {
    var ds := Digits(n, base);
    forall i | 0 <= i < |ds|
      ensures ds[i] != '\r' && ds[i] != '\n'
    {
      assert IsDigit(ds[i], base);
    }
  }
}
