/** The articles of a run are articles the dummy server can take: framing and NUL bytes. */
module PeerTheory {
  import opened Text
  import opened Message
  import opened Yenc
  import opened Parts
  import opened PoolModel
  import opened IdTheory
  import opened Submission
  import opened EndToEnd
  import opened DummyServer
  import Lockstep
  import MessageId

  predicate NoNul(s: string)
  {
    '\0' !in s
  }

  lemma {:induction false} ConcatNoNul(ls: seq<string>)
    requires forall i :: 0 <= i < |ls| ==> NoNul(ls[i])
    ensures NoNul(Concat(ls))
  {
    if ls != [] {
      ConcatNoNul(ls[1..]);
    }
  }

  lemma DigitsNoNul(n: nat, base: nat)
    requires base == 10 || base == 16
    ensures NoNul(Digits(n, base))
  {
    var ds := Digits(n, base);
    forall i | 0 <= i < |ds|
      ensures ds[i] != '\0'
    {
      assert IsDigit(ds[i], base);
    }
  }

  lemma {:induction false} PrintNoNul(fs: seq<Field>)
    requires forall i :: 0 <= i < |fs| ==> NoNul(fs[i].tag)
    ensures NoNul(Print(fs))
  {
    if fs != [] {
      PrintNoNul(fs[1..]);
      DigitsNoNul(fs[0].value, fs[0].Base());
    }
  }

  lemma KeywordNoNul(fs: seq<Field>, tail: string)
    requires NoNul(tail) && forall i :: 0 <= i < |fs| ==> NoNul(fs[i].tag)
    ensures NoNul((Print(fs) + tail) + CRLF)
  {
    PrintNoNul(fs);
  }

  lemma DataNoNul(data: seq<byte>, lineLength: nat)
    ensures NoNul(Block(data, lineLength))
  {
    BlockLinesAreLines(data, lineLength);
    ConcatNoNul(BlockLines(data, lineLength));
  }

  /** A part has no NUL byte, whatever its data: the encoding escapes it. */
  lemma PartNoNul(p: PartInfo)
    requires NoNul(p.name)
    ensures NoNul(PartText(p))
  {
    KeywordNoNul(BeginFields(p), NAME_LABEL + p.name);
    KeywordNoNul(PartFields(p), "");
    KeywordNoNul(EndFields(p), "");
    DataNoNul(p.data, p.line);
    PartTextIs(p);
  }

  ghost predicate ElementNoNul(e: Element)
  {
    NoNul(e.field) && NoNul(e.value)
  }

  lemma {:induction false} ElementsNoNul(es: seq<Element>)
    requires forall i :: 0 <= i < |es| ==> ElementNoNul(es[i])
    ensures NoNul(Concat(ElementLines(es)))
  {
    if es != [] {
      ElementsNoNul(es[1..]);
      assert ElementNoNul(es[0]);
      ConsLine(ElementLine(es[0]), ElementLines(es[1..]));
    }
  }

  lemma HeaderNoNul(h: Header)
    requires NoNul(h.from) && NoNul(h.subject) && NoNul(h.msgid) && NoNul(Join(h.newsgroups, ","))
    requires forall i :: 0 <= i < |h.additional| ==> ElementNoNul(h.additional[i])
    ensures NoNul(HeaderText(h))
  {
    FixedText(h);
    ElementsNoNul(h.additional);
    ConcatAppend(FixedLines(h), ElementLines(h.additional));
  }

  lemma WireNoNul(a: Article)
    requires NoNul(HeaderText(a.header)) && NoNul(Concat(a.payload))
    ensures NoNul(Wire(a))
  {
    WireIsFrontAndDot(a);
  }

  /** No NUL byte in any text main takes from its configuration and from file names. */
  ghost predicate NulFree(cfg: Settings, inputs: seq<Input>)
  {
    && NoNul(cfg.from) && NoNul(cfg.subject) && NoNul(cfg.domain)
    && (forall i :: 0 <= i < |cfg.groups| ==> NoNul(cfg.groups[i]))
    && (forall i :: 0 <= i < |inputs| ==> NoNul(inputs[i].name))
  }

  lemma {:induction false} JoinNoNul(groups: seq<string>)
    requires forall i :: 0 <= i < |groups| ==> NoNul(groups[i])
    ensures NoNul(Join(groups, ","))
  {
    if |groups| > 1 {
      JoinNoNul(groups[1..]);
    }
  }

  lemma NonceNoNul(s: string)
    requires NonceChars(s)
    ensures NoNul(s)
  {
    forall i | 0 <= i < |s|
      ensures s[i] != '\0'
    {
      assert MessageId.NonceChar(s[i]);
    }
  }

  lemma RandomNoNul(e: Element)
    requires RandomElement(e)
    ensures ElementNoNul(e)
  {
    var name: string :| NonceChars(name) && e.field == RANDOM_FIELD + name;
    NonceNoNul(e.value);
    NonceNoNul(name);
  }

  lemma PrintedNoNul(nonce: string, domain: string, key: MessageId.Key)
    requires NoNul(nonce) && NoNul(domain)
    ensures NoNul(MessageId.Print(nonce, domain, key))
  {
    DigitsNoNul(key.file, 10);
    DigitsNoNul(key.piece, 10);
  }

  lemma SubjectNoNul(subject: string, f: nat, numFiles: nat, name: string, p: nat, numPieces: nat)
    requires NoNul(subject) && NoNul(name)
    ensures NoNul(Subject(subject, f, numFiles, name, p, numPieces))
  {
    DigitsNoNul(f + 1, 10);
    DigitsNoNul(numFiles, 10);
    DigitsNoNul(p + 1, 10);
    DigitsNoNul(numPieces, 10);
  }

  /** The header of an article of a run has no NUL byte. */
  lemma ArticleNoNul(run: Config, cfg: Settings, inputs: seq<Input>, m: Main, f: nat, p: nat)
    requires Submits(run, cfg, inputs) && CleanInputs(cfg, inputs) && NulFree(cfg, inputs) && Ids(run, m)
    requires f < |inputs| && p < PiecesOf(cfg, inputs[f]) && Offset(cfg, inputs, f) + p < |m.arts|
    ensures NoNul(HeaderText(m.arts[Offset(cfg, inputs, f) + p].header))
  {
    var a, key := Offset(cfg, inputs, f) + p, MessageId.Key(f, p);
    PieceIndex(cfg, inputs, run.nonce, f, p);
    assert ArtOk(run, m, a);
    var h := m.arts[a].header;
    SubmissionIsValid(run, cfg, inputs);
    NonceInUse(run, m, key);
    NonceNoNul(NonceOf(run.nonce, m.exceptions, key));
    PrintedNoNul(NonceOf(run.nonce, m.exceptions, key), cfg.domain, key);
    SubjectNoNul(cfg.subject, f, |inputs|, inputs[f].name, p, PiecesOf(cfg, inputs[f]));
    JoinNoNul(cfg.groups);
    forall i | 0 <= i < |h.additional|
      ensures ElementNoNul(h.additional[i])
    {
      RandomNoNul(h.additional[i]);
    }
    HeaderNoNul(h);
  }

  lemma OneIsPostable(run: Config, cfg: Settings, inputs: seq<Input>, m: Main, a: nat)
    requires Submits(run, cfg, inputs) && CleanInputs(cfg, inputs) && NulFree(cfg, inputs) && Ids(run, m) && a < |m.arts|
    ensures Postable(Wire(m.arts[a]))
  {
    var f, p := Locate(cfg, inputs, run.nonce, a);
    ArticleOf(run, cfg, inputs, m, f, p);
    ArticleNoNul(run, cfg, inputs, m, f, p);
    ArticleIsPostable(m.arts[a], ChunkPart(cfg, inputs[f], p));
  }

  lemma AllArePostable(run: Config, cfg: Settings, inputs: seq<Input>, m: Main)
    requires Submits(run, cfg, inputs) && CleanInputs(cfg, inputs) && NulFree(cfg, inputs) && Ids(run, m)
    ensures Lockstep.AllPostable(m.arts)
  {
    forall a | 0 <= a < |m.arts|
      ensures Postable(Wire(m.arts[a]))
    {
      OneIsPostable(run, cfg, inputs, m, a);
    }
  }

  /** In every state of every run, every article main holds is one article to the server, after any number
      of failures and fresh ids: in lockstep with the server it is stored as it is. */
  lemma {:induction false} RunArticlesArePostable(run: Config, steps: seq<Step>, cfg: Settings, inputs: seq<Input>)
    requires Submits(run, cfg, inputs) && CleanInputs(cfg, inputs) && NulFree(cfg, inputs) && Legal(run, steps)
    ensures Lockstep.AllPostable(After(run, steps).main.arts)
  {
    SubmissionIsValid(run, cfg, inputs);
    IdsAlways(run, steps);
    AllArePostable(run, cfg, inputs, After(run, steps).main);
  }

  lemma ArticleIsPostable(a: Article, p: PartInfo)
    requires CleanHeader(a.header) && NoNul(HeaderText(a.header)) && Plain(p.name) && NoNul(p.name) && a.payload == [PartText(p)]
    ensures Postable(Wire(a))
  {
    PartLinesAreLines(p);
    ConsLine(PartText(p), []);
    assert a.payload == [PartText(p)] + [] && Concat(a.payload) == Concat(PartLines(p));
    Framing(a, PartLines(p), "");
    assert Wire(a) + "" == Wire(a);
    PartNoNul(p);
    WireNoNul(a);
  }
}
