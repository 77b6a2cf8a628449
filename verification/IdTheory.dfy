/** Through every run: what the articles say, how often they failed, and what was sent for them. */
module IdTheory {
  import opened Text
  import opened Message
  import opened ConnModel
  import opened PoolModel
  import opened PoolCounts
  import opened RunTheory
  import opened TallyTheory
  import MessageId

  // ---- What main submits --------------------------------------------------------------------------------

  /** The submission loop builds one article for every piece: distinct keys, the id of the run nonce, no
      additional header lines. */
  ghost predicate ValidConfig(cfg: Config)
  {
    && MessageId.IsNonce(cfg.nonce, 16)
    && (forall i, j :: 0 <= i < j < |cfg.posts| ==> cfg.posts[i].key != cfg.posts[j].key)
    && (forall i :: 0 <= i < |cfg.posts| ==> ValidPiece(cfg, cfg.posts[i]))
  }

  predicate ValidPiece(cfg: Config, p: Piece)
  {
    p.article.header.msgid == MessageId.Print(cfg.nonce, cfg.domain, p.key) && p.article.header.additional == []
  }

  /** The nonce write_nzb uses for a piece. */
  function NonceOf(nonce: string, exceptions: map<Key, string>, key: Key): string
  {
    if key in exceptions then exceptions[key] else nonce
  }

  predicate NonceChars(s: string)
  {
    forall i :: 0 <= i < |s| ==> MessageId.NonceChar(s[i])
  }

  const RANDOM_FIELD := "X-Random-"

  /** A header line the post-failed callback adds. */
  ghost predicate RandomElement(e: Element)
  {
    && NonceChars(e.value)
    && exists name: string :: NonceChars(name) && e.field == RANDOM_FIELD + name
  }

  /** Article a is the article of piece a, under the id its exception (or the run nonce) gives, with random
      lines added. */
  ghost predicate ArtOk(cfg: Config, m: Main, a: nat)
    requires a < |m.arts| && a < |cfg.posts|
  {
    var art, piece := m.arts[a], cfg.posts[a];
    && art.payload == piece.article.payload
    && art.header == piece.article.header.(msgid := art.header.msgid, additional := art.header.additional)
    && art.header.msgid == MessageId.Print(NonceOf(cfg.nonce, m.exceptions, piece.key), cfg.domain, piece.key)
    && forall i :: 0 <= i < |art.header.additional| ==> RandomElement(art.header.additional[i])
  }

  function Count(retries: map<Key, nat>, key: Key): nat
  {
    if key in retries then retries[key] else 0
  }

  ghost predicate Ids(cfg: Config, m: Main)
  {
    && |m.arts| <= |cfg.posts|
    && (forall a :: 0 <= a < |m.arts| ==> ArtOk(cfg, m, a))
    && (forall k :: k in m.exceptions ==> MessageId.IsNonce(m.exceptions[k], 16))
    && (forall i :: |m.arts| <= i < |cfg.posts| ==> cfg.posts[i].key !in m.exceptions)
    && (forall i :: 0 <= i < |cfg.posts| ==> Count(m.retries, cfg.posts[i].key) == InList(m.failed, i))
  }

  lemma NonceHasNoDot(s: string)
    requires NonceChars(s)
    ensures '.' !in s && Plain(s) && MessageId.NoBrackets(s)
  {
    forall i | 0 <= i < |s|
      ensures s[i] != '.' && s[i] != '\r' && s[i] != '\n' && s[i] != '<' && s[i] != '>'
    {
      assert MessageId.NonceChar(s[i]);
    }
  }

  lemma NonceInUse(cfg: Config, m: Main, key: Key)
    requires ValidConfig(cfg) && Ids(cfg, m)
    ensures NonceChars(NonceOf(cfg.nonce, m.exceptions, key))
  {
  }

  /** Message id agreement: the id in the header of article a reads back as the key of piece a. */
  lemma KeyOfArticle(cfg: Config, m: Main, a: nat)
    requires ValidConfig(cfg) && Ids(cfg, m) && a < |m.arts|
    ensures MessageId.KeyOf(m.arts[a].header.msgid) == Some(cfg.posts[a].key)
  {
    assert ArtOk(cfg, m, a);
    var nonce := NonceOf(cfg.nonce, m.exceptions, cfg.posts[a].key);
    NonceInUse(cfg, m, cfg.posts[a].key);
    NonceHasNoDot(nonce);
    MessageId.KeyOfPrinted(nonce, cfg.domain, cfg.posts[a].key);
  }

  lemma SubmitIds(cfg: Config, m: Main)
    requires ValidConfig(cfg) && Ids(cfg, m) && |m.arts| < |cfg.posts|
    ensures Ids(cfg, m.(arts := m.arts + [cfg.posts[|m.arts|].article]))
  {
    var n := |m.arts|;
    var m' := m.(arts := m.arts + [cfg.posts[n].article]);
    assert ValidPiece(cfg, cfg.posts[n]);
    forall a | 0 <= a < |m'.arts|
      ensures ArtOk(cfg, m', a)
    {
      if a < n {
        assert ArtOk(cfg, m, a);
      }
    }
  }

  lemma CountIds(cfg: Config, m: Main, a: nat)
    requires ValidConfig(cfg) && Ids(cfg, m) && a < |m.arts|
    ensures MessageId.KeyOf(m.arts[a].header.msgid).Some? && Ids(cfg, CountRetry(m, a))
    ensures InList(CountRetry(m, a).failed, a) == InList(m.failed, a) + 1
  {
    KeyOfArticle(cfg, m, a);
    var m' := CountRetry(m, a);
    forall i | 0 <= i < |cfg.posts|
      ensures Count(m'.retries, cfg.posts[i].key) == InList(m'.failed, i)
    {
      InListAppend(m.failed, a, i);
      assert Count(m.retries, cfg.posts[i].key) == InList(m.failed, i);
    }
    forall b | 0 <= b < |m'.arts|
      ensures ArtOk(cfg, m', b)
    {
      assert ArtOk(cfg, m, b);
    }
    InListAppend(m.failed, a, a);
  }

  lemma RenamedArt(cfg: Config, m: Main, a: nat, d: Draw, m': Main)
    requires ValidConfig(cfg) && Ids(cfg, m) && a < |m.arts| && ValidDraw(d)
    requires m'.exceptions == m.exceptions[cfg.posts[a].key := d.nonce]
    requires m'.arts == m.arts[a := m.arts[a].(header := Renamed(m.arts[a].header, cfg.posts[a].key, d, cfg.domain))]
    ensures ArtOk(cfg, m', a)
  {
    assert ArtOk(cfg, m, a);
    var es := m'.arts[a].header.additional;
    forall i | 0 <= i < |es|
      ensures RandomElement(es[i])
    {
      if i < |m.arts[a].header.additional| {
        assert es[i] == m.arts[a].header.additional[i];
      } else {
        assert es[i] == Element(RANDOM_FIELD + d.headerName, d.headerValue);
        assert NonceChars(d.headerName);
      }
    }
  }

  /** A failure: the retry count of the right piece goes up, its exception and its header change together. */
  lemma {:induction false} PostFailedIds(cfg: Config, m: Main, a: nat, d: Draw)
    requires ValidConfig(cfg) && Ids(cfg, m) && a < |m.arts| && ValidDraw(d)
    ensures Judge(m, a) == (if InList(m.failed, a) >= 2 then Abort else Requeue)
    ensures Ids(cfg, PostFailed(m, a, d, cfg.domain))
    ensures InList(PostFailed(m, a, d, cfg.domain).failed, a) == InList(m.failed, a) + 1
  {
    KeyOfArticle(cfg, m, a);
    CountIds(cfg, m, a);
    assert Count(m.retries, cfg.posts[a].key) == InList(m.failed, a);
    if Judge(m, a) == Requeue {
      RequeueIds(cfg, CountRetry(m, a), a, d, PostFailed(m, a, d, cfg.domain));
    }
  }

  lemma RequeueIds(cfg: Config, m: Main, a: nat, d: Draw, m': Main)
    requires ValidConfig(cfg) && Ids(cfg, m) && a < |m.arts| && ValidDraw(d)
    requires m' == m.(exceptions := m.exceptions[cfg.posts[a].key := d.nonce],
                      arts := m.arts[a := m.arts[a].(header := Renamed(m.arts[a].header, cfg.posts[a].key, d, cfg.domain))])
    ensures Ids(cfg, m')
  {
    forall b | 0 <= b < |m'.arts|
      ensures ArtOk(cfg, m', b)
    {
      if b == a {
        RenamedArt(cfg, m, a, d, m');
      } else {
        assert ArtOk(cfg, m, b);
        assert cfg.posts[b].key != cfg.posts[a].key;
      }
    }
  }

  // ---- Ids, retries and the store through every run -------------------------------------------------------

  ghost predicate IdsOk(cfg: Config, s: State)
  {
    && Ids(cfg, s.main)
    && |s.main.arts| == (if s.producer.next < |cfg.posts| then s.producer.next else |cfg.posts|)
    && s.exit != Some(EXIT_CRASH)
    && (forall i :: InList(s.main.failed, i) <= if s.io.Dying? && s.io.art == i then 3 else 2)
    && (s.exit.None? ==> !s.io.Dying?)
  }

  lemma ResubmitIds(cfg: Config, s: State, art: nat, d: Draw, after: Handler)
    requires ValidConfig(cfg) && IdsOk(cfg, s) && s.exit.None? && art < |s.main.arts| && ValidDraw(d) && !after.Dying?
    ensures IdsOk(cfg, Resubmit(cfg, s, art, d, after))
  {
    PostFailedIds(cfg, s.main, art, d);
    var m' := PostFailed(s.main, art, d, cfg.domain);
    forall i
      ensures InList(m'.failed, i) == InList(s.main.failed, i) + if i == art then 1 else 0
    {
      InListAppend(s.main.failed, art, i);
    }
  }

  /** An article in the hand of a handler is in the store. */
  lemma PendingIsBuilt(cfg: Config, s: State, c: nat, i: nat)
    requires Joint(cfg, s) && HandOf(s.io).None? && i < |s.pool.At(c).pending| && s.pool.At(c).pending[i].PostDone?
    requires s.pool.At(c).pending[i].art.Some? && Tally(s, s.pool.At(c).pending[i].art.value)
    ensures s.pool.At(c).pending[i].art.value < |s.main.arts|
    ensures InPool(s.pool.Enter(c, i), s.pool.At(c).pending[i].art.value) == 0
    ensures InPosted(s.main.posted, s.pool.At(c).pending[i].art.value) == 0
  {
    EnterCounts(s.pool, c, i, s.pool.At(c).pending[i].art.value);
  }

  lemma PostDoneIds(cfg: Config, s: State, step: Step)
    requires ValidConfig(cfg) && Joint(cfg, s) && IdsOk(cfg, s) && Enabled(cfg, s, step) && step.PostDone?
    requires forall a :: Tally(s, a)
    ensures IdsOk(cfg, Next(cfg, s, step))
  {
    var c, i, t := step.conn, step.i, s.pool.At(step.conn).pending[step.i];
    PendingIsBuilt(cfg, s, c, i);
    match t.post {
      case PostFailure => ResubmitIds(cfg, s.(pool := s.pool.Enter(c, i)), t.art.value, step.draw, BecomingReady(c));
      case PostConnectionError =>
        ResubmitIds(cfg, s.(pool := s.pool.Enter(c, i).Reconnect(c)), t.art.value, step.draw, Idle);
      case PostSuccess =>
      case PostingNotPermitted => KeepIds(cfg, s.main, Next(cfg, s, step).main);
    }
  }

  lemma IdsNext(cfg: Config, s: State, step: Step)
    requires ValidConfig(cfg) && Joint(cfg, s) && IdsOk(cfg, s) && Enabled(cfg, s, step)
    requires forall a :: Tally(s, a)
    ensures IdsOk(cfg, Next(cfg, s, step))
  {
    match step {
      case Submit =>
        if s.producer.next < |cfg.posts| {
          SubmitIds(cfg, s.main);
        }
      case PostDone(_, _, _) => PostDoneIds(cfg, s, step);
      case Resume => KeepIds(cfg, s.main, Next(cfg, s, step).main);
      case _ => assert Next(cfg, s, step).main == s.main;
    }
  }

  lemma KeepIds(cfg: Config, m: Main, m': Main)
    requires Ids(cfg, m)
    requires m'.arts == m.arts && m'.retries == m.retries && m'.exceptions == m.exceptions && m'.failed == m.failed
    ensures Ids(cfg, m')
  {
    forall a | 0 <= a < |m'.arts|
      ensures ArtOk(cfg, m', a)
    {
      assert ArtOk(cfg, m, a);
    }
  }

  lemma {:induction false} IdsAlways(cfg: Config, run: seq<Step>)
    requires ValidConfig(cfg) && Legal(cfg, run)
    ensures IdsOk(cfg, After(cfg, run))
    decreases |run|
  {
    if run != [] {
      var before := run[..|run| - 1];
      IdsAlways(cfg, before);
      JointAlways(cfg, before);
      forall a
        ensures Tally(After(cfg, before), a)
      {
        TallyAlways(cfg, before, a);
      }
      IdsNext(cfg, After(cfg, before), run[|run| - 1]);
    }
  }
}
