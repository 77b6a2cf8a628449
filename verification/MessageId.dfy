/** src/fileset.cc: message ids as printed for a piece, and the piece read back from an id. */
module MessageId {
  import opened Text

  /** filepiece_key */
  datatype Key = Key(file: nat, piece: nat)

  /** std::string::find of a character: its first position, |s| for npos. */
  function Find(s: string, c: char): (i: nat)
    ensures i <= |s|
  {
    if s == "" || s[0] == c then 0 else 1 + Find(s[1..], c)
  }

  function Print(nonce: string, domain: string, key: Key): string
  {
    "<" + nonce + "." + Digits(key.file, 10) + "." + Digits(key.piece, 10) + "@" + domain + ">"
  }

  /** get_key_from_message_id; None where the source asserts or std::stoul throws. */
  function KeyOf(msgid: string): Option<Key>
  {
    var firstDot := Find(msgid, '.');
    if firstDot == |msgid| then None
    else
      var afterFirst := msgid[firstDot + 1..];
      var secondDot := Find(afterFirst, '.');
      if secondDot == |afterFirst| then None
      else
        var afterSecond := afterFirst[secondDot + 1..];
        var file := ReadNumber(afterFirst[..secondDot], 10);
        var piece := ReadNumber(afterSecond[..Find(afterSecond, '@')], 10);
        if file.None? || piece.None? then None else Some(Key(file.value.0, piece.value.0))
  }

  lemma {:induction false} FindAfter(s: string, c: char, rest: string)
    requires forall i :: 0 <= i < |s| ==> s[i] != c
    ensures Find(s + ([c] + rest), c) == |s|
    ensures (s + ([c] + rest))[..|s|] == s && (s + ([c] + rest))[|s| + 1..] == rest
  {
    if s != "" {
      FindAfter(s[1..], c, rest);
      assert (s + ([c] + rest))[1..] == s[1..] + ([c] + rest);
    }
  }

  lemma DigitsLack(n: nat, c: char)
    requires !IsDigit(c, 10)
    ensures forall i :: 0 <= i < |Digits(n, 10)| ==> Digits(n, 10)[i] != c
  {
    var ds := Digits(n, 10);
    forall i | 0 <= i < |ds|
      ensures ds[i] != c
    {
      assert IsDigit(ds[i], 10);
    }
  }

  lemma ReadDigits(n: nat)
    ensures ReadNumber(Digits(n, 10), 10) == Some((n, ""))
  {
    ReadNumberOfDigits(n, 10, "");
    assert Digits(n, 10) + "" == Digits(n, 10);
  }

  /** For a nonce without dots the key is read back, whatever the domain is. */
  lemma KeyOfPrinted(nonce: string, domain: string, key: Key)
    requires '.' !in nonce
    ensures KeyOf(Print(nonce, domain, key)) == Some(key)
  {
    var f, p := Digits(key.file, 10), Digits(key.piece, 10);
    var tail := domain + ">";
    DigitsLack(key.file, '.');
    DigitsLack(key.piece, '@');
    ReadDigits(key.file);
    ReadDigits(key.piece);
    NoDotInHead(nonce);
    KeyOfText("<" + nonce, f, p, tail, key);
    Nested("<" + nonce, f, p, domain);
  }

  lemma NoDotInHead(nonce: string)
    requires '.' !in nonce
    ensures '.' !in "<" + nonce
  {
    assert forall c :: c in "<" + nonce ==> c == '<' || c in nonce;
  }

  lemma Nested(head: string, f: string, p: string, domain: string)
    ensures head + "." + f + "." + p + "@" + domain + ">" == head + (['.'] + (f + (['.'] + (p + (['@'] + (domain + ">"))))))
  {
  }

  lemma KeyOfText(head: string, f: string, p: string, tail: string, key: Key)
    requires '.' !in head && '.' !in f && '@' !in p
    requires ReadNumber(f, 10) == Some((key.file, "")) && ReadNumber(p, 10) == Some((key.piece, ""))
    ensures KeyOf(head + (['.'] + (f + (['.'] + (p + (['@'] + tail)))))) == Some(key)
  {
    FindAfter(head, '.', f + (['.'] + (p + (['@'] + tail))));
    FindAfter(f, '.', p + (['@'] + tail));
    FindAfter(p, '@', tail);
  }

  /** Printed ids are injective in the key, across nonces and domains. */
  lemma PrintedIsInjective(n1: string, d1: string, k1: Key, n2: string, d2: string, k2: Key)
    requires '.' !in n1 && '.' !in n2
    requires Print(n1, d1, k1) == Print(n2, d2, k2)
    ensures k1 == k2
  {
    KeyOfPrinted(n1, d1, k1);
    KeyOfPrinted(n2, d2, k2);
  }

  // ---- The characters of an id --------------------------------------------------------------

  /** Characters get_run_nonce chooses from. */
  predicate NonceChar(c: char)
  {
    'a' <= c <= 'z' || '0' <= c <= '9'
  }

  predicate IsNonce(s: string, length: nat)
  {
    |s| == length && forall i :: 0 <= i < |s| ==> NonceChar(s[i])
  }

  /** The id as the NZB prints it: both angle brackets removed everywhere. */
  function Bare(msgid: string): string
  {
    ReplaceAll(ReplaceAll(msgid, '<', ""), '>', "")
  }

  predicate NoBrackets(s: string)
  {
    forall i :: 0 <= i < |s| ==> s[i] != '<' && s[i] != '>'
  }

  function Body(nonce: string, domain: string, key: Key): string
  {
    nonce + "." + Digits(key.file, 10) + "." + Digits(key.piece, 10) + "@" + domain
  }

  /** The NZB prints what is left of the text between the two brackets. */
  lemma BareIsBareBody(nonce: string, domain: string, key: Key)
    ensures Print(nonce, domain, key) == "<" + Body(nonce, domain, key) + ">"
    ensures Bare(Print(nonce, domain, key)) == Bare(Body(nonce, domain, key))
  {
    var body, printed := Body(nonce, domain, key), Print(nonce, domain, key);
    var inner := ReplaceAll(body, '<', "");
    assert printed == ("<" + body) + ">";
    assert ReplaceAll(printed, '<', "") == inner + ">" by {
      ReplaceAppend("<" + body, ">", '<', "");
      ReplaceAppend("<", body, '<', "");
      ReplaceOne('<', '<', "");
      ReplaceOne('>', '<', "");
    }
    assert ReplaceAll(inner + ">", '>', "") == ReplaceAll(inner, '>', "") by {
      ReplaceAppend(inner, ">", '>', "");
      ReplaceOne('>', '>', "");
    }
  }

  lemma {:induction false} RemovingShortens(s: string, c: char)
    ensures |ReplaceAll(s, c, "")| <= |s|
    ensures c in s ==> |ReplaceAll(s, c, "")| < |s|
  {
    if s != "" {
      RemovingShortens(s[1..], c);
    }
  }

  lemma BareIsShorter(s: string)
    ensures Bare(s) == s <==> NoBrackets(s)
  {
    if NoBrackets(s) {
      ReplaceAbsent(s, '<', "");
      ReplaceAbsent(s, '>', "");
    } else {
      RemovingShortens(s, '<');
      RemovingShortens(ReplaceAll(s, '<', ""), '>');
      if '<' !in s {
        ReplaceAbsent(s, '<', "");
      }
    }
  }

  /** What the NZB prints is the posted id without its own two brackets if and only if the domain has none. */
  lemma BareOfPrinted(nonce: string, domain: string, key: Key)
    requires NoBrackets(nonce)
    ensures "<" + Bare(Print(nonce, domain, key)) + ">" == Print(nonce, domain, key) <==> NoBrackets(domain)
  {
    var body := Body(nonce, domain, key);
    DigitsLack(key.file, '<');
    DigitsLack(key.file, '>');
    DigitsLack(key.piece, '<');
    DigitsLack(key.piece, '>');
    BareIsBareBody(nonce, domain, key);
    BareIsShorter(body);
    BodyBrackets(nonce + "." + Digits(key.file, 10) + "." + Digits(key.piece, 10) + "@", domain);
    assert |"<" + Bare(body) + ">"| == |Bare(body)| + 2;
    assert Bare(body) == ("<" + Bare(body) + ">")[1..|Bare(body)| + 1];
    assert body == ("<" + body + ">")[1..|body| + 1];
  }

  lemma BodyBrackets(front: string, domain: string)
    requires NoBrackets(front)
    ensures NoBrackets(front + domain) <==> NoBrackets(domain)
  {
    if NoBrackets(front + domain) {
      forall i | 0 <= i < |domain|
        ensures domain[i] != '<' && domain[i] != '>'
      {
        assert (front + domain)[|front| + i] == domain[i];
      }
    }
  }
}
