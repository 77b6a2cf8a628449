/** Runs that show what can happen: an idle connection beside a stranded article, a command that overtakes
    another, and a queue filled to its bound. */
module Traces {
  import opened Text
  import opened Message
  import opened ConnModel
  import opened ConnTheory
  import opened PoolModel
  import opened PoolCounts
  import opened FifoTheory

  lemma Extend(cfg: Config, run: seq<Step>, step: Step)
    requires Legal(cfg, run) && Enabled(cfg, After(cfg, run), step)
    ensures Legal(cfg, run + [step]) && After(cfg, run + [step]) == Next(cfg, After(cfg, run), step)
  {
    var longer := run + [step];
    assert longer[..|longer| - 1] == run;
  }

  // ---- A server that answers --------------------------------------------------------------------------

  /** The answer to a task when everything goes well; with `permit` false POST is answered with 440. */
  function Answer(t: Task, permit: bool): Event
  {
    match t
    case AwaitWelcome | AwaitUserReply | AwaitPassReply | AwaitArticleReply | AwaitStatReply => Data("200" + CRLF)
    case AwaitPostReply => Data((if permit then "340" else "440") + CRLF)
    case _ => Ok
  }

  /** A connection in the middle of an operation, its read buffer drained. */
  ghost predicate Working(k: Conn, t: Task)
  {
    k.pending == [t] && k.readbuf == [] && Fits(k, t) && (t.RunConnect? || OfConnecting(t) || t.RunPost? || OfPosting(t))
  }

  /** Where the answers lead. */
  function Expected(k: Conn, t: Task, permit: bool): Task
  {
    if t.RunConnect? || OfConnecting(t) then ConnectDone(ConnectSuccess)
    else ConnModel.Task.PostDone(
      k.article, if permit || t.WritingArticle? || t.AwaitArticleReply? then PostSuccess else PostingNotPermitted)
  }

  lemma AnswerCompletes(k: Conn, t: Task, permit: bool)
    requires Working(k, t)
    ensures k.CanComplete(0, Answer(t, permit))
  {
    var ev := Answer(t, permit);
    if ev.Data? {
      ThreeDigits(ev.arrived[..3]);
      assert ev.arrived == ev.arrived[..3] + CRLF;
      LineArrives(k, ev.arrived);
    }
  }

  lemma LineArrives(k: Conn, line: string)
    requires |k.pending| == 1 && k.Awaits(k.pending[0]) && k.readbuf == [] && LineEnd(line) != 0
    ensures k.CanComplete(0, Data(line))
  {
    assert TextOf(k.readbuf) == "" && LineEnd("") == 0;
    assert TextOf(k.readbuf) + line == line;
  }

  lemma ThreeDigits(s: string)
    requires s == "200" || s == "340" || s == "440"
    ensures LineEnd(s + CRLF) == 5
  {
    PlainLine(s);
  }

  /** The connection after a good answer: further on its way, or at the posted handler. */
  ghost predicate Onward(k: Conn, t: Task, permit: bool, k': Conn)
  {
    && |k'.pending| == 1 && k'.readbuf == []
    && var t' := k'.pending[0];
       if t' == Expected(k, t, permit)
       then k'.state == Authenticated && k'.article == None && k'.msgid == ""
       else Working(k', t') && TaskRank(t') < TaskRank(t) && Expected(k', t', permit) == Expected(k, t, permit)
  }

  lemma SaysTwoHundred()
    ensures "2" <= "200" + CRLF && !("381" <= "200" + CRLF)
  {
    var line := "200" + CRLF;
    assert line[0] == '2' && "2" <= line;
    PrefixAgrees("381", line);
  }

  lemma LoginOnward(k: Conn, d: Conn, t: Task, permit: bool, conf: Conf, store: seq<Article>)
    requires Working(k, t) && k.Awaits(t) && OfConnecting(t)
    requires d.pending == [] && d.readbuf == [] && Fits(d, t) && d.article == k.article
    ensures Onward(k, t, permit, d.Hears(t, Answer(t, permit).arrived, conf, store))
  {
    SaysTwoHundred();
    assert Answer(t, permit).arrived == "200" + CRLF;
  }

  lemma HearsOnward(k: Conn, d: Conn, t: Task, permit: bool, conf: Conf, store: seq<Article>)
    requires Working(k, t) && k.Awaits(t)
    requires d.pending == [] && d.readbuf == [] && Fits(d, t) && d.article == k.article
    ensures Onward(k, t, permit, d.Hears(t, Answer(t, permit).arrived, conf, store))
  {
    if t.AwaitPostReply? {
      PostReplyOnward(k, d, t, permit, conf, store);
    } else {
      SaysTwoHundred();
      if OfConnecting(t) {
        LoginOnward(k, d, t, permit, conf, store);
      }
    }
  }

  lemma PostReplyOnward(k: Conn, d: Conn, t: Task, permit: bool, conf: Conf, store: seq<Article>)
    requires Working(k, t) && t.AwaitPostReply?
    requires d.pending == [] && d.readbuf == [] && Fits(d, t) && d.article == k.article
    ensures Onward(k, t, permit, d.Hears(t, Answer(t, permit).arrived, conf, store))
  {
    var line := Answer(t, permit).arrived;
    if permit {
      assert line[0] == '3';
      PrefixAgrees("4", line);
      var k' := d.SendArticle(store);
      assert k'.pending[0] == WritingArticle;
      assert d.Hears(t, line, conf, store) == k';
    } else {
      assert "4" <= line;
      var k' := d.PostCallback(PostingNotPermitted);
      assert d.Hears(t, line, conf, store) == k';
    }
  }

  lemma GoesOnward(k: Conn, t: Task, permit: bool, conf: Conf, store: seq<Article>)
    requires Working(k, t) && !k.Awaits(t) && k.CanComplete(0, Ok)
    ensures Onward(k, t, permit, k.Complete(0, Ok, conf, store))
  {
    var d := k.Done(0);
    assert d.pending == [];
    if k.Runs(t) {
      RunsOnward(k, d, t, permit);
    } else {
      SucceedsOnward(k, d.Note(Went), t, permit, conf);
    }
  }

  lemma RunsOnward(k: Conn, d: Conn, t: Task, permit: bool)
    requires Working(k, t) && k.Runs(t)
    requires d.pending == [] && d.readbuf == [] && Fits(d, t) && d.article == k.article
    ensures Onward(k, t, permit, d.Run(t))
  {
  }

  lemma SucceedsOnward(k: Conn, d: Conn, t: Task, permit: bool, conf: Conf)
    requires Working(k, t) && !k.Runs(t) && !k.Awaits(t)
    requires d.pending == [] && d.readbuf == [] && Fits(d, t) && d.article == k.article
    ensures Onward(k, t, permit, d.Succeeds(t, conf))
  {
    if OfConnecting(t) {
      SucceedsConnecting(k, d, t, permit, conf);
    } else {
      SucceedsPosting(k, d, t, permit, conf);
    }
  }

  lemma SucceedsConnecting(k: Conn, d: Conn, t: Task, permit: bool, conf: Conf)
    requires Working(k, t) && OfConnecting(t) && !k.Runs(t) && !k.Awaits(t)
    requires d.pending == [] && d.readbuf == [] && Fits(d, t) && d.article == k.article
    ensures Onward(k, t, permit, d.Succeeds(t, conf))
  {
  }

  lemma SucceedsPosting(k: Conn, d: Conn, t: Task, permit: bool, conf: Conf)
    requires Working(k, t) && OfPosting(t) && !k.Runs(t) && !k.Awaits(t)
    requires d.pending == [] && d.readbuf == [] && Fits(d, t) && d.article == k.article
    ensures Onward(k, t, permit, d.Succeeds(t, conf))
  {
  }

  lemma AnswerMoves(k: Conn, t: Task, permit: bool, conf: Conf, store: seq<Article>)
    requires Working(k, t) && k.CanComplete(0, Answer(t, permit))
    ensures Onward(k, t, permit, k.Complete(0, Answer(t, permit), conf, store))
  {
    var ev := Answer(t, permit);
    if ev.Data? {
      ThreeDigits(ev.arrived[..3]);
      assert ev.arrived == ev.arrived[..3] + CRLF;
      var d := Heard(k, ev.arrived, conf, store);
      HearsOnward(k, d, t, permit, conf, store);
    } else {
      GoesOnward(k, t, permit, conf, store);
    }
  }

  lemma GetsAnswer(cfg: Config, s: State, c: nat, t: Task, permit: bool) returns (k1: Conn)
    requires s.exit.None? && s.io.Idle? && c < |s.pool.conns| && c < |cfg.confs| && Working(s.pool.conns[c], t)
    ensures Enabled(cfg, s, Progress(c, 0, Answer(t, permit)))
    ensures Next(cfg, s, Progress(c, 0, Answer(t, permit))) == s.(pool := s.pool.With(c, k1))
    ensures Onward(s.pool.conns[c], t, permit, k1)
  {
    var k := s.pool.conns[c];
    AnswerCompletes(k, t, permit);
    AnswerMoves(k, t, permit, cfg.confs[c], s.main.arts);
    k1 := k.Complete(0, Answer(t, permit), cfg.confs[c], s.main.arts);
  }

  /** From inside an operation to its posted handler; nothing else changes. */
  lemma {:induction false} Serve(cfg: Config, run: seq<Step>, c: nat, t: Task, permit: bool) returns (run': seq<Step>, k': Conn)
    requires Legal(cfg, run)
    requires var s := After(cfg, run);
             s.exit.None? && s.io.Idle? && c < |s.pool.conns| && c < |cfg.confs| && Working(s.pool.conns[c], t)
    ensures Legal(cfg, run')
    ensures After(cfg, run') == After(cfg, run).(pool := After(cfg, run).pool.With(c, k'))
    ensures k'.pending == [Expected(After(cfg, run).pool.conns[c], t, permit)]
    ensures k'.readbuf == [] && k'.state == Authenticated && k'.article == None && k'.msgid == ""
    decreases TaskRank(t)
  {
    var s := After(cfg, run);
    var k, step := s.pool.conns[c], Progress(c, 0, Answer(t, permit));
    var k1 := GetsAnswer(cfg, s, c, t, permit);
    Extend(cfg, run, step);
    var run1 := run + [step];
    if k1.pending[0] == Expected(k, t, permit) {
      assert k1.pending == [k1.pending[0]];
      run', k' := run1, k1;
    } else {
      run', k' := Serve(cfg, run1, c, k1.pending[0], permit);
    }
  }

  /** A connection whose handler is posted after a success. */
  predicate AtHandler(p: Pool, c: nat)
  {
    && c < |p.conns| && |p.conns[c].pending| == 1 && p.conns[c].Calls(p.conns[c].pending[0])
    && p.conns[c].readbuf == [] && p.conns[c].state == Authenticated && p.conns[c].article == None && p.conns[c].msgid == ""
  }

  /** Its handler takes the next article from the queue. */
  lemma TakesQueued(p: Pool, c: nat)
    requires AtHandler(p, c) && p.queue != [] && p.queue[0].PostCmd?
    ensures var q := p.Enter(c, 0).BecomesReady(c);
            && Working(q.At(c), RunPost)
            && q == p.With(c, q.At(c)).(queue := p.queue[1..], started := p.started + [p.queue[0]])
  {
    assert RemoveAt(p.conns[c].pending, 0) == [];
  }

  /** Its handler finds the queue empty, and the connection rests. */
  lemma Rests(p: Pool, c: nat)
    requires AtHandler(p, c) && p.queue == [] && p.work
    ensures var q := p.Enter(c, 0).BecomesReady(c);
            && q.At(c).pending == [] && q.At(c).readbuf == [] && q.At(c).state == Authenticated
            && q.At(c).article == None && q.At(c).msgid == ""
            && q == p.With(c, q.At(c)).(busy := Without(p.busy, c), ready := p.ready + [c])
  {
    assert RemoveAt(p.conns[c].pending, 0) == [];
  }

  // ---- The stranded article -----------------------------------------------------------------------------

  /** The producer has submitted n articles and they are all in the queue. */
  ghost predicate Queued(cfg: Config, s: State, n: nat)
  {
    && s.exit.None? && s.io.Idle? && s.producer == Producer(n, None, false)
    && s.pool.ready == [] && s.pool.started == [] && s.pool.work
    && s.pool.queue == Cmds(0, n)
    && s.pool.arrivals == Cmds(0, n) && |s.main.arts| == n
    && s.pool.conns == Init(cfg).pool.conns && s.pool.busy == Iota(|cfg.confs|)
    && s.main.posted == [] && s.main.failed == [] && s.main.refused == []
  }

  /** The POSTs of articles a .. b-1. */
  function Cmds(a: nat, b: nat): seq<Command>
    requires a <= b
  {
    seq(b - a, i requires 0 <= i => PostCmd(a + i))
  }

  lemma {:induction false} FillQueue(cfg: Config, n: nat) returns (run: seq<Step>)
    requires n <= |cfg.posts| && (cfg.maxsize == 0 || n <= cfg.maxsize)
    ensures Legal(cfg, run) && Queued(cfg, After(cfg, run), n)
  {
    if n == 0 {
      run := [];
    } else {
      var before := FillQueue(cfg, n - 1);
      Extend(cfg, before, Submit);
      run := before + [Submit];
      FillOne(cfg, After(cfg, before), n - 1);
    }
  }

  lemma FillOne(cfg: Config, s: State, n: nat)
    requires n < |cfg.posts| && (cfg.maxsize == 0 || n < cfg.maxsize)
    requires Queued(cfg, s, n) && Enabled(cfg, s, Submit)
    ensures Queued(cfg, Next(cfg, s, Submit), n + 1)
  {
    assert Cmds(0, n + 1) == Cmds(0, n) + [PostCmd(n)];
  }

  /** One connection, the queue holds articles from .. m-1, the connection has just been told to post
      article from-1, the producer is blocked with article m. */
  ghost predicate Draining(cfg: Config, s: State, from: nat)
    requires from <= cfg.maxsize
  {
    var m := cfg.maxsize;
    && s.exit.None? && s.io.Idle? && s.producer == Producer(m + 1, Some(PostCmd(m)), false)
    && s.pool.ready == [] && s.pool.work && s.pool.busy == [0]
    && s.pool.queue == Cmds(from, m) && s.pool.started == Cmds(0, from) && s.pool.arrivals == Cmds(0, m)
    && |s.pool.conns| == 1 && Working(s.pool.conns[0], RunPost)
    && |s.main.arts| == m + 1 && s.main.failed == [] && s.main.refused == [] && |s.main.posted| == from - 1
  }

  lemma StartDraining(cfg: Config) returns (run: seq<Step>)
    requires |cfg.confs| == 1 && cfg.maxsize >= 1 && cfg.maxsize < |cfg.posts|
    ensures Legal(cfg, run) && Draining(cfg, After(cfg, run), 1)
  {
    var m := cfg.maxsize;
    var r0 := FillQueue(cfg, m);
    Extend(cfg, r0, Submit);
    var r1 := r0 + [Submit];
    BlocksProducer(cfg, After(cfg, r0));
    var r2, k := Serve(cfg, r1, 0, RunConnect, true);
    Extend(cfg, r2, Connected(0, 0));
    run := r2 + [Connected(0, 0)];
    FirstStarts(cfg, After(cfg, r1), k, After(cfg, r2), After(cfg, run));
  }

  /** The queue is full, and the producer waits with one article more. */
  ghost predicate Waiting(cfg: Config, s: State)
  {
    var m := cfg.maxsize;
    && s.exit.None? && s.io.Idle? && s.producer == Producer(m + 1, Some(PostCmd(m)), false)
    && s.pool.ready == [] && s.pool.work && s.pool.busy == [0]
    && s.pool.queue == Cmds(0, m) && s.pool.started == [] && s.pool.arrivals == Cmds(0, m)
    && |s.pool.conns| == 1 && Working(s.pool.conns[0], RunConnect)
    && |s.main.arts| == m + 1 && s.main.failed == [] && s.main.refused == [] && s.main.posted == []
  }

  lemma BlocksProducer(cfg: Config, s: State)
    requires |cfg.confs| == 1 && 1 <= cfg.maxsize < |cfg.posts|
    requires Queued(cfg, s, cfg.maxsize) && Enabled(cfg, s, Submit)
    ensures Waiting(cfg, Next(cfg, s, Submit))
  {
    assert Iota(1) == [0];
    assert s.pool.conns[0] == FRESH.AsyncConnect();
    assert s.pool.conns[0].pending == [RunConnect];
  }

  lemma FirstOfCmds(m: nat)
    requires 1 <= m
    ensures Cmds(0, m)[1..] == Cmds(1, m) && Cmds(0, m)[0] == PostCmd(0) && [] + [PostCmd(0)] == Cmds(0, 1)
  {
  }

  lemma FirstStarts(cfg: Config, s0: State, k: Conn, s: State, s': State)
    requires 1 <= cfg.maxsize && Waiting(cfg, s0)
    requires s == s0.(pool := s0.pool.With(0, k)) && AtHandler(s.pool, 0)
    requires k.pending[0] == ConnectDone(ConnectSuccess)
    requires Enabled(cfg, s, Connected(0, 0)) && s' == Next(cfg, s, Connected(0, 0))
    ensures Draining(cfg, s', 1)
  {
    FirstOfCmds(cfg.maxsize);
    TakesQueued(s.pool, 0);
  }

  lemma {:induction false} Drain(cfg: Config, from: nat) returns (run: seq<Step>)
    requires |cfg.confs| == 1 && 1 <= from <= cfg.maxsize < |cfg.posts|
    ensures Legal(cfg, run) && Draining(cfg, After(cfg, run), from)
  {
    if from == 1 {
      run := StartDraining(cfg);
    } else {
      var r0 := Drain(cfg, from - 1);
      var r1, k := Serve(cfg, r0, 0, RunPost, true);
      var step := Step.PostDone(0, 0, SomeDraw());
      Extend(cfg, r1, step);
      Extend(cfg, r1 + [step], Resume);
      run := r1 + [step] + [Resume];
      DrainOne(cfg, After(cfg, r0), from, k, After(cfg, r1), After(cfg, run));
    }
  }

  lemma DrainOne(cfg: Config, s0: State, from: nat, k: Conn, s: State, s': State)
    requires 2 <= from <= cfg.maxsize && Draining(cfg, s0, from - 1)
    requires s == s0.(pool := s0.pool.With(0, k)) && AtHandler(s.pool, 0)
    requires k.pending[0].PostDone? && k.pending[0].art.Some? && k.pending[0].post.PostSuccess?
    requires Enabled(cfg, s, Step.PostDone(0, 0, SomeDraw()))
    requires Enabled(cfg, Next(cfg, s, Step.PostDone(0, 0, SomeDraw())), Resume)
    requires s' == Next(cfg, Next(cfg, s, Step.PostDone(0, 0, SomeDraw())), Resume)
    ensures Draining(cfg, s', from)
  {
    var m := cfg.maxsize;
    assert Cmds(from - 1, m)[1..] == Cmds(from, m) && Cmds(from - 1, m)[0] == PostCmd(from - 1);
    assert Cmds(0, from - 1) + [PostCmd(from - 1)] == Cmds(0, from);
    TakesQueued(s.pool, 0);
  }

  function SomeDraw(): (d: Draw)
    ensures ValidDraw(d)
  {
    Draw("aaaaaaaaaa", "aaaaa", "aaaaaaaaaaaaaaaa")
  }

  /** The last article is queued beside the idle connection. */
  ghost predicate BesideIdle(cfg: Config, s: State)
  {
    var m := cfg.maxsize;
    && s.exit.None? && s.io.Idle? && s.producer == Producer(m + 1, None, false)
    && s.pool.ready == [0] && s.pool.queue == [PostCmd(m)]
    && |s.pool.conns| == 1 && s.pool.conns[0].pending == []
    && s.pool.started == Cmds(0, m) && s.pool.arrivals == Cmds(0, m + 1)
    && s.main.failed == [] && s.main.refused == [] && |s.main.posted| == m && |s.main.arts| == m + 1
  }

  /** The connection finishes and rests before the producer, whose wait is over, has run. */
  lemma WokenLate(cfg: Config) returns (run: seq<Step>)
    requires |cfg.confs| == 1 && 1 <= cfg.maxsize < |cfg.posts| && !cfg.recheck
    ensures Legal(cfg, run) && BesideIdle(cfg, After(cfg, run))
  {
    var r0 := FinishesFirst(cfg);
    Extend(cfg, r0, Wake);
    var r1 := r0 + [Wake];
    Wakes(cfg, After(cfg, r0));
    Extend(cfg, r1, Resume);
    run := r1 + [Resume];
  }

  lemma FinishesFirst(cfg: Config) returns (run: seq<Step>)
    requires |cfg.confs| == 1 && 1 <= cfg.maxsize < |cfg.posts|
    ensures Legal(cfg, run) && Rested(cfg, After(cfg, run), false)
  {
    var r0 := Drain(cfg, cfg.maxsize);
    var r1, k := Serve(cfg, r0, 0, RunPost, true);
    var step := Step.PostDone(0, 0, SomeDraw());
    Extend(cfg, r1, step);
    run := r1 + [step];
    AllDrained(cfg, After(cfg, r0), k, After(cfg, r1), After(cfg, run));
  }

  /** The connection is idle, its article not yet reported; the producer waits, or has pushed. */
  ghost predicate Rested(cfg: Config, s: State, pushed: bool)
  {
    var m := cfg.maxsize;
    && s.exit.None? && s.io.Reporting? && s.producer == Producer(m + 1, if pushed then None else Some(PostCmd(m)), false)
    && s.pool.ready == [0] && s.pool.queue == (if pushed then [PostCmd(m)] else [])
    && |s.pool.conns| == 1 && s.pool.conns[0].pending == []
    && s.pool.started == Cmds(0, m) && s.pool.arrivals == Cmds(0, if pushed then m + 1 else m)
    && |s.main.arts| == m + 1 && s.main.failed == [] && s.main.refused == [] && |s.main.posted| == m - 1
  }

  lemma Wakes(cfg: Config, s: State)
    requires 1 <= cfg.maxsize && !cfg.recheck && Rested(cfg, s, false) && Enabled(cfg, s, Wake)
    ensures Rested(cfg, Next(cfg, s, Wake), true)
  {
    assert Cmds(0, cfg.maxsize) + [PostCmd(cfg.maxsize)] == Cmds(0, cfg.maxsize + 1);
  }

  lemma AllDrained(cfg: Config, s0: State, k: Conn, s: State, s': State)
    requires 1 <= cfg.maxsize && Draining(cfg, s0, cfg.maxsize)
    requires s == s0.(pool := s0.pool.With(0, k)) && AtHandler(s.pool, 0)
    requires k.pending[0].PostDone? && k.pending[0].art.Some? && k.pending[0].post.PostSuccess?
    requires Enabled(cfg, s, Step.PostDone(0, 0, SomeDraw())) && s' == Next(cfg, s, Step.PostDone(0, 0, SomeDraw()))
    ensures Rested(cfg, s', false)
  {
    Rests(s.pool, 0);
    assert Cmds(cfg.maxsize, cfg.maxsize) == [];
  }

  lemma StillInOrder(cfg: Config, s: State)
    requires BesideIdle(cfg, s)
    ensures Fifo(s.pool)
  {
    assert Cmds(0, cfg.maxsize) + [PostCmd(cfg.maxsize)] == Cmds(0, cfg.maxsize + 1);
  }

  /** From there the producer stops, join() returns, and main finds the queue not empty. */
  lemma GivesUp(cfg: Config, s: State)
    requires |cfg.posts| == cfg.maxsize + 1 && cfg.stats == [] && BesideIdle(cfg, s)
    ensures Enabled(cfg, s, Stop) && Enabled(cfg, Next(cfg, s, Stop), Exit)
    ensures var s' := Next(cfg, Next(cfg, s, Stop), Exit);
            && s' == s.(producer := s.producer.(stopped := true), pool := s.pool.(work := false), exit := Some(EXIT_FAILED))
            && !Exclusive(s'.pool)
  {
  }

  /** For every queue bound m there is a run without a single error, in which the exclusion breaks, one of
      m + 1 articles is never posted, and the program reports failure. */
  lemma {:induction false} StrandedArticle(cfg: Config) returns (run: seq<Step>)
    requires |cfg.confs| == 1 && 1 <= cfg.maxsize && |cfg.posts| == cfg.maxsize + 1 && cfg.stats == [] && !cfg.recheck
    ensures Legal(cfg, run) && !AlwaysExclusive(cfg, run)
    ensures var s := After(cfg, run);
            && s.exit == Some(EXIT_FAILED)
            && s.main.failed == [] && s.main.refused == [] && |s.main.posted| == cfg.maxsize
            && s.pool.ready == [0] && s.pool.queue == [PostCmd(cfg.maxsize)] && Fifo(s.pool)
  {
    var r0 := WokenLate(cfg);
    StillInOrder(cfg, After(cfg, r0));
    GivesUp(cfg, After(cfg, r0));
    Extend(cfg, r0, Stop);
    var r1 := r0 + [Stop];
    Extend(cfg, r1, Exit);
    run := r1 + [Exit];
  }

  /** With one article more, that one overtakes the article in the queue. */
  lemma {:induction false} Overtaking(cfg: Config) returns (run: seq<Step>)
    requires |cfg.confs| == 1 && 1 <= cfg.maxsize && cfg.maxsize + 2 <= |cfg.posts| && !cfg.recheck
    ensures Legal(cfg, run) && !Fifo(After(cfg, run).pool)
  {
    var r0 := WokenLate(cfg);
    NextOneStarts(cfg, After(cfg, r0));
    Extend(cfg, r0, Submit);
    run := r0 + [Submit];
    OutOfOrder(cfg, After(cfg, run).pool);
  }

  lemma NextOneStarts(cfg: Config, s: State)
    requires cfg.maxsize + 2 <= |cfg.posts| && BesideIdle(cfg, s)
    ensures Enabled(cfg, s, Submit)
    ensures var m, p := cfg.maxsize, Next(cfg, s, Submit).pool;
            && p.started == Cmds(0, m) + [PostCmd(m + 1)] && p.queue == [PostCmd(m)]
            && p.arrivals == Cmds(0, m + 1) + [PostCmd(m + 1)]
  {
  }

  lemma OutOfOrder(cfg: Config, p: Pool)
    requires p.started == Cmds(0, cfg.maxsize) + [PostCmd(cfg.maxsize + 1)] && p.queue == [PostCmd(cfg.maxsize)]
    requires p.arrivals == Cmds(0, cfg.maxsize + 1) + [PostCmd(cfg.maxsize + 1)]
    ensures !Fifo(p)
  {
    var m := cfg.maxsize;
    assert (p.started + p.queue)[m] == PostCmd(m + 1) && p.arrivals[m] == PostCmd(m);
  }

  // ---- The queue at its bound -----------------------------------------------------------------------------

  /** Connections 0 .. k-1 have each just been told to post; the others have not yet connected. */
  ghost predicate Loaded(cfg: Config, s: State, k: nat)
  {
    && s.exit.None? && s.io.Idle? && s.producer == Producer(k, None, false)
    && s.pool.ready == [] && s.pool.queue == [] && s.pool.work
    && |s.main.arts| == k && s.main.failed == [] && |s.pool.conns| == |cfg.confs|
    && (forall c :: 0 <= c < k && c < |cfg.confs| ==> Working(s.pool.conns[c], RunPost))
    && (forall c :: k <= c < |cfg.confs| ==> s.pool.conns[c] == FRESH.AsyncConnect())
  }

  lemma {:induction false} LoadConnections(cfg: Config, k: nat) returns (run: seq<Step>)
    requires k <= |cfg.confs| && k <= |cfg.posts|
    ensures Legal(cfg, run) && Loaded(cfg, After(cfg, run), k)
  {
    if k == 0 {
      run := [];
    } else {
      var c := k - 1;
      var r0 := LoadConnections(cfg, c);
      var r1 := ConnectOne(cfg, r0, c);
      Extend(cfg, r1, Submit);
      run := r1 + [Submit];
      LoadOne(cfg, After(cfg, r0), c, After(cfg, r1), After(cfg, run));
    }
  }

  /** Connection c connects and finds nothing to do. */
  lemma ConnectOne(cfg: Config, run: seq<Step>, c: nat) returns (run': seq<Step>)
    requires Legal(cfg, run) && c < |cfg.confs| && Loaded(cfg, After(cfg, run), c)
    ensures Legal(cfg, run')
    ensures var s0, s := After(cfg, run), After(cfg, run');
            && s == s0.(pool := s0.pool.With(c, s.pool.At(c)).(busy := s.pool.busy, ready := [c]))
            && s.pool.At(c).pending == [] && s.pool.At(c).readbuf == [] && s.pool.At(c).state == Authenticated
            && s.pool.At(c).article == None && s.pool.At(c).msgid == ""
  {
    assert Working(After(cfg, run).pool.conns[c], RunConnect);
    var r1, k := Serve(cfg, run, c, RunConnect, true);
    Rests(After(cfg, r1).pool, c);
    Extend(cfg, r1, Connected(c, 0));
    run' := r1 + [Connected(c, 0)];
  }

  lemma LoadOne(cfg: Config, s0: State, c: nat, s: State, s': State)
    requires c < |cfg.confs| && c < |cfg.posts| && Loaded(cfg, s0, c)
    requires s == s0.(pool := s0.pool.With(c, s.pool.At(c)).(busy := s.pool.busy, ready := [c]))
    requires s.pool.At(c).pending == [] && s.pool.At(c).readbuf == [] && s.pool.At(c).state == Authenticated
    requires s.pool.At(c).article == None && s.pool.At(c).msgid == ""
    requires Enabled(cfg, s, Submit) && s' == Next(cfg, s, Submit)
    ensures Loaded(cfg, s', c + 1)
  {
    var k := s.pool.conns[c].AsyncPost(|s.main.arts|);
    assert s'.pool.conns == s.pool.conns[c := k];
    assert Working(k, RunPost);
    forall x | 0 <= x < c + 1 && x < |cfg.confs|
      ensures Working(s'.pool.conns[x], RunPost)
    {
      assert x < c ==> Working(s0.pool.conns[x], RunPost);
    }
  }

  /** The connections are loaded and j more articles are queued. */
  ghost predicate Stacked(cfg: Config, s: State, j: nat)
  {
    && s.exit.None? && s.io.Idle? && s.producer.blocked.None? && s.producer.next == |cfg.confs| + j
    && s.pool.ready == [] && |s.pool.queue| == j && |s.pool.conns| == |cfg.confs|
    && (forall c :: 0 <= c < |cfg.confs| ==> Working(s.pool.conns[c], RunPost))
  }

  lemma {:induction false} StackQueue(cfg: Config, j: nat) returns (run: seq<Step>)
    requires j <= cfg.maxsize && |cfg.confs| + j <= |cfg.posts|
    ensures Legal(cfg, run) && Stacked(cfg, After(cfg, run), j)
  {
    if j == 0 {
      run := LoadConnections(cfg, |cfg.confs|);
    } else {
      var r0 := StackQueue(cfg, j - 1);
      Extend(cfg, r0, Submit);
      run := r0 + [Submit];
    }
  }

  /** The first d connections were refused, and their articles went to the queue. */
  ghost predicate Refused(cfg: Config, s: State, d: nat)
  {
    && s.exit.None? && s.io.Idle?
    && s.pool.ready == [] && |s.pool.queue| == cfg.maxsize + d && |s.pool.conns| == |cfg.confs|
    && (forall c :: d <= c < |cfg.confs| ==> Working(s.pool.conns[c], RunPost))
  }

  /** Connection c is told that posting is not permitted: it is closed, and its article goes to the queue. */
  lemma RefusesOne(cfg: Config, s: State, c: nat, k: Conn)
    requires c < |cfg.confs| && Refused(cfg, s, c)
    requires k.pending == [ConnModel.Task.PostDone(s.pool.conns[c].article, PostingNotPermitted)]
    ensures var s1, step := s.(pool := s.pool.With(c, k)), Step.PostDone(c, 0, SomeDraw());
            && Enabled(cfg, s1, step) && Enabled(cfg, Next(cfg, s1, step), Resume)
            && Refused(cfg, Next(cfg, Next(cfg, s1, step), Resume), c + 1)
  {
    assert Working(s.pool.conns[c], RunPost);
  }

  lemma {:induction false} RefuseAll(cfg: Config, d: nat) returns (run: seq<Step>)
    requires d <= |cfg.confs| && |cfg.confs| + cfg.maxsize <= |cfg.posts|
    ensures Legal(cfg, run) && Refused(cfg, After(cfg, run), d)
  {
    if d == 0 {
      run := StackQueue(cfg, cfg.maxsize);
    } else {
      var c := d - 1;
      var r0 := RefuseAll(cfg, c);
      var r1, k := Serve(cfg, r0, c, RunPost, false);
      var step := Step.PostDone(c, 0, SomeDraw());
      RefusesOne(cfg, After(cfg, r0), c, k);
      Extend(cfg, r1, step);
      Extend(cfg, r1 + [step], Resume);
      run := r1 + [step] + [Resume];
    }
  }

  /** The bound is tight: for every m_maxsize and every number of connections some run reaches it. */
  lemma {:induction false} BoundIsReached(cfg: Config) returns (run: seq<Step>)
    requires |cfg.confs| + cfg.maxsize <= |cfg.posts|
    ensures Legal(cfg, run) && |After(cfg, run).pool.queue| == cfg.maxsize + |cfg.confs|
  {
    run := RefuseAll(cfg, |cfg.confs|);
  }
}
