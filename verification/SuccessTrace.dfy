/** A run that goes well: for every list of pieces and every nonempty set of connections. */
module SuccessTrace {
  import opened Text
  import opened Message
  import opened ConnModel
  import opened PoolModel
  import opened PoolTheory
  import opened Traces

  /** Connections 1 .. k-1 could not connect; connection 0 has not yet tried. */
  ghost predicate Culled(cfg: Config, s: State, k: nat)
  {
    && s.exit.None? && s.io.Idle? && s.producer == Producer(0, None, false)
    && s.pool.ready == [] && s.pool.queue == [] && s.pool.work && 0 in s.pool.busy
    && s.main.arts == [] && s.main.posted == [] && |s.pool.conns| == |cfg.confs| > 0
    && s.pool.conns[0] == FRESH.AsyncConnect()
    && (forall c :: 1 <= c < k && c < |cfg.confs| ==> s.pool.conns[c].pending == [])
    && (forall c :: k <= c < |cfg.confs| ==> s.pool.conns[c] == FRESH.AsyncConnect())
  }

  lemma Disconnects(conf: Conf, store: seq<Article>) returns (k1: Conn, k2: Conn)
    ensures var k := FRESH.AsyncConnect();
            && k.CanComplete(0, Ok) && k1 == k.Complete(0, Ok, conf, store)
            && k1.CanComplete(0, Err("")) && k2 == k1.Complete(0, Err(""), conf, store)
    ensures k2.pending == [ConnectDone(FatalConnectError)]
  {
    var k := FRESH.AsyncConnect();
    k1 := k.Complete(0, Ok, conf, store);
    assert k.pending == [RunConnect] && k.Done(0).pending == [] && k1.pending == [Resolving];
    k2 := k1.Complete(0, Err(""), conf, store);
    assert k1.Done(0).pending == [];
  }

  /** Connection c fails to connect. */
  lemma FailsToConnect(cfg: Config, s: State, c: nat) returns (k1: Conn, k2: Conn)
    requires 1 <= c < |cfg.confs| && Culled(cfg, s, c)
    ensures var s1, s2 := s.(pool := s.pool.With(c, k1)), s.(pool := s.pool.With(c, k2));
            && Enabled(cfg, s, Step.Progress(c, 0, Ok)) && Next(cfg, s, Step.Progress(c, 0, Ok)) == s1
            && Enabled(cfg, s1, Step.Progress(c, 0, Err(""))) && Next(cfg, s1, Step.Progress(c, 0, Err(""))) == s2
            && k2.pending == [ConnectDone(FatalConnectError)]
  {
    k1, k2 := Disconnects(cfg.confs[c], s.main.arts);
    assert s.pool.conns[c := k1][c := k2] == s.pool.conns[c := k2];
  }

  /** And is discarded. */
  lemma CullOne(cfg: Config, run: seq<Step>, c: nat) returns (run': seq<Step>)
    requires Legal(cfg, run) && 1 <= c < |cfg.confs| && Culled(cfg, After(cfg, run), c)
    ensures Legal(cfg, run') && Culled(cfg, After(cfg, run'), c + 1)
  {
    var s := After(cfg, run);
    var k1, k2 := FailsToConnect(cfg, s, c);
    var ok, err, done := Step.Progress(c, 0, Ok), Step.Progress(c, 0, Err("")), Step.Connected(c, 0);
    Extend(cfg, run, ok);
    var r1 := run + [ok];
    Extend(cfg, r1, err);
    var r2 := r1 + [err];
    assert After(cfg, r2) == s.(pool := s.pool.With(c, k2));
    Extend(cfg, r2, done);
    run' := r2 + [done];
    Culls(cfg, s, c, k2, After(cfg, run'));
  }

  lemma Culls(cfg: Config, s: State, c: nat, k: Conn, s': State)
    requires 1 <= c < |cfg.confs| && Culled(cfg, s, c) && k.pending == [ConnectDone(FatalConnectError)]
    requires s' == s.(pool := s.pool.With(c, k).Enter(c, 0).OnConnected(c, FatalConnectError))
    ensures Culled(cfg, s', c + 1)
  {
    WithoutIs(s.pool.busy, c);
    assert k.Deliver(0).pending == [];
  }

  lemma {:induction false} CullAll(cfg: Config, k: nat) returns (run: seq<Step>)
    requires 1 <= k <= |cfg.confs|
    ensures Legal(cfg, run) && Culled(cfg, After(cfg, run), k)
  {
    if k == 1 {
      run := [];
      assert Init(cfg).pool.busy[0] == 0;
    } else {
      var r0 := CullAll(cfg, k - 1);
      run := CullOne(cfg, r0, k - 1);
    }
  }

  /** Connection 0 is idle, n pieces are posted, nothing else is under way. */
  ghost predicate Steady(cfg: Config, s: State, n: nat)
  {
    && s.exit.None? && s.io.Idle? && s.producer == Producer(n, None, false)
    && s.pool.ready == [0] && s.pool.queue == [] && s.pool.work
    && |s.main.arts| == n && |s.main.posted| == n && |s.pool.conns| == |cfg.confs| > 0
    && s.pool.conns[0].state == Authenticated && s.pool.conns[0].readbuf == []
    && s.pool.conns[0].article == None && s.pool.conns[0].msgid == ""
    && s.pool.Quiescent()
  }

  lemma Connects(cfg: Config) returns (run: seq<Step>)
    requires cfg.confs != []
    ensures Legal(cfg, run) && Steady(cfg, After(cfg, run), 0)
  {
    var r0 := CullAll(cfg, |cfg.confs|);
    assert FRESH.AsyncConnect().pending == [RunConnect];
    var r1, k := Serve(cfg, r0, 0, RunConnect, true);
    Extend(cfg, r1, Connected(0, 0));
    run := r1 + [Connected(0, 0)];
    FindsNothing(cfg, After(cfg, r0), k, After(cfg, r1), After(cfg, run));
  }

  /** Connection 0 has logged in and finds nothing to do. */
  lemma FindsNothing(cfg: Config, s0: State, k: Conn, s: State, s': State)
    requires Culled(cfg, s0, |cfg.confs|) && s == s0.(pool := s0.pool.With(0, k)) && AtHandler(s.pool, 0)
    requires k.pending[0] == ConnectDone(ConnectSuccess)
    requires Enabled(cfg, s, Connected(0, 0)) && s' == Next(cfg, s, Connected(0, 0))
    ensures Steady(cfg, s', 0)
  {
    Rests(s.pool, 0);
    assert s'.pool == s.pool.Enter(0, 0).BecomesReady(0);
    forall c | 0 <= c < |s'.pool.conns|
      ensures s'.pool.conns[c].pending == []
    {
      assert c > 0 ==> s'.pool.conns[c] == s0.pool.conns[c];
    }
  }

  lemma PostOne(cfg: Config, run: seq<Step>, n: nat) returns (run': seq<Step>)
    requires Legal(cfg, run) && Steady(cfg, After(cfg, run), n) && n < |cfg.posts|
    ensures Legal(cfg, run') && Steady(cfg, After(cfg, run'), n + 1)
  {
    var s := After(cfg, run);
    Extend(cfg, run, Submit);
    var r0 := run + [Submit];
    var s0 := After(cfg, r0);
    Starts(cfg, s, n);
    var r1, k := Serve(cfg, r0, 0, RunPost, true);
    var done := Step.PostDone(0, 0, SomeDraw());
    assert k.pending[0].art.Some?;
    Extend(cfg, r1, done);
    Extend(cfg, r1 + [done], Resume);
    run' := r1 + [done] + [Resume];
    Reports(cfg, s0, n, k, After(cfg, r1), After(cfg, run'));
  }

  /** Connection 0 has been told to post piece n. */
  ghost predicate Posting(cfg: Config, s: State, n: nat)
  {
    && s.exit.None? && s.io.Idle? && s.producer == Producer(n + 1, None, false)
    && s.pool.ready == [] && s.pool.queue == [] && s.pool.work
    && |s.main.arts| == n + 1 && |s.main.posted| == n && |s.pool.conns| == |cfg.confs| > 0
    && Working(s.pool.conns[0], RunPost)
    && (forall c :: 1 <= c < |cfg.confs| ==> s.pool.conns[c].pending == [])
  }

  lemma Starts(cfg: Config, s: State, n: nat)
    requires Steady(cfg, s, n) && n < |cfg.posts| && Enabled(cfg, s, Submit)
    ensures Posting(cfg, Next(cfg, s, Submit), n)
  {
    var k := s.pool.conns[0].AsyncPost(n);
    assert Next(cfg, s, Submit).pool.conns == s.pool.conns[0 := k];
    assert Working(k, RunPost);
  }

  lemma Reports(cfg: Config, s0: State, n: nat, k: Conn, s: State, s': State)
    requires Posting(cfg, s0, n) && s == s0.(pool := s0.pool.With(0, k)) && AtHandler(s.pool, 0)
    requires k.pending[0].PostDone? && k.pending[0].art.Some? && k.pending[0].post.PostSuccess?
    requires Enabled(cfg, s, Step.PostDone(0, 0, SomeDraw()))
    requires Enabled(cfg, Next(cfg, s, Step.PostDone(0, 0, SomeDraw())), Resume)
    requires s' == Next(cfg, Next(cfg, s, Step.PostDone(0, 0, SomeDraw())), Resume)
    ensures Steady(cfg, s', n + 1)
  {
    Rests(s.pool, 0);
    forall c | 0 <= c < |s'.pool.conns|
      ensures s'.pool.conns[c].pending == []
    {
      assert c > 0 ==> s'.pool.conns[c] == s0.pool.conns[c];
    }
  }

  lemma {:induction false} PostEach(cfg: Config, n: nat) returns (run: seq<Step>)
    requires cfg.confs != [] && n <= |cfg.posts|
    ensures Legal(cfg, run) && Steady(cfg, After(cfg, run), n)
  {
    if n == 0 {
      run := Connects(cfg);
    } else {
      var r0 := PostEach(cfg, n - 1);
      run := PostOne(cfg, r0, n - 1);
    }
  }

  /** For every list of pieces, every queue bound and at least one connection some run posts everything and
      exits 0. */
  lemma {:induction false} Succeeds(cfg: Config) returns (run: seq<Step>)
    requires cfg.confs != [] && cfg.stats == []
    ensures Legal(cfg, run) && After(cfg, run).exit == Some(EXIT_OK) && |After(cfg, run).main.posted| == |cfg.posts|
  {
    var r0 := PostEach(cfg, |cfg.posts|);
    Extend(cfg, r0, Stop);
    Extend(cfg, r0 + [Stop], Exit);
    run := r0 + [Stop] + [Exit];
  }
}
