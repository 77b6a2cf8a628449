/** What --validate asks for: the id in each STAT against the id under which the article was posted. */
module ValidateTheory {
  import opened Text
  import opened Message
  import opened ConnModel
  import opened PoolModel
  import opened PoolTheory
  import opened PoolCounts
  import opened RunTheory
  import opened TallyTheory
  import opened IdTheory
  import opened Submission
  import opened Traces
  import MessageId

  /** The STAT loop of main: one STAT for every article, with the id of the run nonce. */
  ghost predicate Validates(cfg: Config)
  {
    && |cfg.stats| == |cfg.posts|
    && forall a :: 0 <= a < |cfg.posts| ==> cfg.stats[a] == MessageId.Print(cfg.nonce, cfg.domain, cfg.posts[a].key)
  }

  /** That is the loop of the source. */
  lemma {:induction false} SubmittedStatsValidate(run: Config, cfg: Settings, inputs: seq<Input>)
    requires Submits(run, cfg, inputs) && run.stats == StatIds(cfg, inputs, run.nonce)
    ensures Validates(run)
  {
    StatIdsAre(cfg, inputs, run.nonce, 0);
    forall a | 0 <= a < |run.posts|
      ensures run.stats[a] == MessageId.Print(run.nonce, run.domain, run.posts[a].key)
    {
      StatIdsAre(cfg, inputs, run.nonce, a);
    }
  }

  // ---- Which articles carry an exception -------------------------------------------------------------------

  /** A piece has an exception exactly when a post of it has failed. */
  ghost predicate Excepted(cfg: Config, m: Main)
  {
    forall a :: 0 <= a < |cfg.posts| ==> (cfg.posts[a].key in m.exceptions <==> InList(m.failed, a) > 0)
  }

  lemma PostFailedExcepts(cfg: Config, m: Main, art: nat, d: Draw)
    requires ValidConfig(cfg) && Ids(cfg, m) && Excepted(cfg, m) && art < |m.arts| && ValidDraw(d)
    ensures Judge(m, art) != Crash && Excepted(cfg, PostFailed(m, art, d, cfg.domain))
  {
    KeyOfArticle(cfg, m, art);
    PostFailedIds(cfg, m, art, d);
    var m' := PostFailed(m, art, d, cfg.domain);
    forall a | 0 <= a < |cfg.posts|
      ensures cfg.posts[a].key in m'.exceptions <==> InList(m'.failed, a) > 0
    {
      InListAppend(m.failed, art, a);
      assert a != art ==> cfg.posts[a].key != cfg.posts[art].key;
    }
  }

  lemma ResubmitExcepts(cfg: Config, s: State, art: nat, d: Draw, after: Handler)
    requires ValidConfig(cfg) && Ids(cfg, s.main) && Excepted(cfg, s.main) && art < |s.main.arts| && ValidDraw(d)
    ensures Excepted(cfg, Resubmit(cfg, s, art, d, after).main)
  {
    PostFailedExcepts(cfg, s.main, art, d);
  }

  lemma PostDoneExcepts(cfg: Config, s: State, step: Step)
    requires ValidConfig(cfg) && Joint(cfg, s) && IdsOk(cfg, s) && Excepted(cfg, s.main)
    requires Enabled(cfg, s, step) && step.PostDone? && Tally(s, s.pool.At(step.conn).pending[step.i].art.value)
    ensures Excepted(cfg, Next(cfg, s, step).main)
  {
    var c, t := step.conn, s.pool.At(step.conn).pending[step.i];
    var p := s.pool.Enter(c, step.i);
    PendingIsBuilt(cfg, s, c, step.i);
    match t.post {
      case PostFailure => ResubmitExcepts(cfg, s.(pool := p), t.art.value, step.draw, BecomingReady(c));
      case PostConnectionError => ResubmitExcepts(cfg, s.(pool := p.Reconnect(c)), t.art.value, step.draw, Idle);
      case _ =>
    }
  }

  lemma ExceptedNext(cfg: Config, s: State, step: Step)
    requires ValidConfig(cfg) && Joint(cfg, s) && IdsOk(cfg, s) && Excepted(cfg, s.main) && Enabled(cfg, s, step)
    requires forall a :: Tally(s, a)
    ensures Excepted(cfg, Next(cfg, s, step).main)
  {
    if step.PostDone? {
      assert Tally(s, s.pool.At(step.conn).pending[step.i].art.value);
      PostDoneExcepts(cfg, s, step);
    } else {
      assert Next(cfg, s, step).main.exceptions == s.main.exceptions && Next(cfg, s, step).main.failed == s.main.failed;
    }
  }

  lemma {:induction false} ExceptedAlways(cfg: Config, run: seq<Step>)
    requires ValidConfig(cfg) && Legal(cfg, run)
    ensures Excepted(cfg, After(cfg, run).main)
    decreases |run|
  {
    if run != [] {
      var before := run[..|run| - 1];
      ExceptedAlways(cfg, before);
      IdsAlways(cfg, before);
      JointAlways(cfg, before);
      AllTallied(cfg, before);
      ExceptedNext(cfg, After(cfg, before), run[|run| - 1]);
    }
  }

  // ---- The id asked for ---------------------------------------------------------------------------------------

  lemma NonceOfPrinted(n1: string, n2: string, domain: string, key: Key)
    requires |n1| == |n2| && MessageId.Print(n1, domain, key) == MessageId.Print(n2, domain, key)
    ensures n1 == n2
  {
    var tail := "." + Digits(key.file, 10) + "." + Digits(key.piece, 10) + "@" + domain + ">";
    assert MessageId.Print(n1, domain, key) == ("<" + n1) + tail && MessageId.Print(n2, domain, key) == ("<" + n2) + tail;
    assert n1 == (("<" + n1) + tail)[1..|n1| + 1];
    assert n2 == (("<" + n2) + tail)[1..|n2| + 1];
  }

  /** In every reachable state: the STAT for a piece asks for the id its article has if and only if no post of
      it has failed, or the fresh nonce of the last failure happens to be the nonce of the run. */
  lemma {:induction false} AskedIdIff(cfg: Config, run: seq<Step>, a: nat)
    requires ValidConfig(cfg) && Validates(cfg) && Legal(cfg, run) && a < |After(cfg, run).main.arts|
    ensures a < |cfg.posts|
    ensures var m := After(cfg, run).main;
            var key := cfg.posts[a].key;
            && (key in m.exceptions <==> InList(m.failed, a) > 0)
            && (cfg.stats[a] == m.arts[a].header.msgid <==> InList(m.failed, a) == 0 || m.exceptions[key] == cfg.nonce)
  {
    IdsAlways(cfg, run);
    ExceptedAlways(cfg, run);
    var m := After(cfg, run).main;
    assert ArtOk(cfg, m, a);
    var key := cfg.posts[a].key;
    var nonce := NonceOf(cfg.nonce, m.exceptions, key);
    if cfg.stats[a] == m.arts[a].header.msgid {
      NonceOfPrinted(cfg.nonce, nonce, cfg.domain, key);
    }
  }

  /** The first connection has lost the first article, and its handler has not been called yet. */
  ghost predicate Lost(s: State)
  {
    && s.exit.None? && s.io.Idle? && |s.main.arts| == 1 && s.main.failed == []
    && |s.pool.conns| > 0 && |s.pool.conns[0].pending| == 1
    && s.pool.conns[0].pending[0].PostDone? && s.pool.conns[0].pending[0].post.PostConnectionError?
    && s.pool.conns[0].pending[0].art.Some?
  }

  lemma WritesAndLoses(k: Conn, conf: Conf, store: seq<Article>) returns (k1: Conn, k2: Conn)
    requires Working(k, RunPost)
    ensures k.CanComplete(0, Ok) && k1 == k.Complete(0, Ok, conf, store)
    ensures k1.CanComplete(0, Err("")) && k2 == k1.Complete(0, Err(""), conf, store)
    ensures |k2.pending| == 1 && k2.pending[0] == ConnModel.Task.PostDone(k.article, PostConnectionError)
  {
    k1 := k.Complete(0, Ok, conf, store);
    assert k.Done(0).pending == [] && k1.pending == [WritingPost];
    k2 := k1.Complete(0, Err(""), conf, store);
    assert k1.Done(0).pending == [];
  }

  lemma LosesPost(cfg: Config) returns (run: seq<Step>)
    requires cfg.confs != [] && cfg.posts != []
    ensures Legal(cfg, run) && Lost(After(cfg, run))
  {
    var r0 := LoadConnections(cfg, 1);
    var s0 := After(cfg, r0);
    assert Working(s0.pool.conns[0], RunPost);
    var k1, k2 := WritesAndLoses(s0.pool.conns[0], cfg.confs[0], s0.main.arts);
    var write, lose := Step.Progress(0, 0, Ok), Step.Progress(0, 0, Err(""));
    Extend(cfg, r0, write);
    Extend(cfg, r0 + [write], lose);
    run := r0 + [write] + [lose];
  }

  function OtherDraw(nonce: string): (d: Draw)
    ensures ValidDraw(d) && d.nonce != nonce
  {
    var d := SomeDraw();
    if d.nonce != nonce then d else d.(nonce := "bbbbbbbbbbbbbbbb")
  }

  /** The first failure of the first article renames it. */
  lemma Renames(cfg: Config, s: State, d: Draw)
    requires ValidConfig(cfg) && Joint(cfg, s) && IdsOk(cfg, s) && Lost(s) && ValidDraw(d)
    requires Tally(s, s.pool.conns[0].pending[0].art.value)
    ensures |cfg.posts| > 0 && Enabled(cfg, s, Step.PostDone(0, 0, d))
    ensures var m, key := Next(cfg, s, Step.PostDone(0, 0, d)).main, cfg.posts[0].key;
            |m.arts| == 1 && InList(m.failed, 0) == 1 && key in m.exceptions && m.exceptions[key] == d.nonce
  {
    PendingIsBuilt(cfg, s, 0, 0);
    PostFailedIds(cfg, s.main, 0, d);
    KeyOfArticle(cfg, s.main, 0);
    var m := PostFailed(s.main, 0, d, cfg.domain);
    assert Next(cfg, s, Step.PostDone(0, 0, d)).main == m;
  }

  /** And it does differ: for every configuration with a connection and a piece to post there is a run after
      one lost connection, at which the STAT for the first piece asks for an id that its article does not have. */
  lemma {:induction false} AsksForTheWrongId(cfg: Config) returns (run: seq<Step>)
    requires ValidConfig(cfg) && Validates(cfg) && cfg.confs != [] && cfg.posts != []
    ensures Legal(cfg, run)
    ensures var m := After(cfg, run).main;
            |m.arts| == 1 && InList(m.failed, 0) == 1 && cfg.stats[0] != m.arts[0].header.msgid
  {
    var r0 := LosesPost(cfg);
    IdsAlways(cfg, r0);
    JointAlways(cfg, r0);
    TallyAlways(cfg, r0, After(cfg, r0).pool.conns[0].pending[0].art.value);
    var d := OtherDraw(cfg.nonce);
    Renames(cfg, After(cfg, r0), d);
    Extend(cfg, r0, Step.PostDone(0, 0, d));
    run := r0 + [Step.PostDone(0, 0, d)];
    AskedIdIff(cfg, run, 0);
  }

  /** Nothing is ever reposted because of a STAT: its end leaves main as it was, and the only command that can
      come in is the same STAT again. */
  lemma StatNeverReposts(cfg: Config, s: State, step: Step)
    requires Joint(cfg, s) && Enabled(cfg, s, step) && step.StatDone?
    ensures var s', id := Next(cfg, s, step), s.pool.At(step.conn).pending[step.i].id;
            s'.main == s.main
            && (s'.pool.arrivals == s.pool.arrivals || s'.pool.arrivals == s.pool.arrivals + [StatCmd(id)])
  {
    var c, t := step.conn, s.pool.At(step.conn).pending[step.i];
    EnterKeeps(s.pool, c, step.i);
    if !t.stat.StatConnectionError? {
      BecomesReadyLists(s.pool.Enter(c, step.i), c);
    }
  }
}
