/** What every reachable state guarantees about each connection, and what an exit code says. */
module ReachTheory {
  import opened Text
  import opened ConnModel
  import opened ConnTheory
  import opened PoolModel
  import opened PoolTheory
  import opened PoolCounts
  import opened RunTheory
  import opened TallyTheory
  import opened BudgetTheory

  // ---- Roles ------------------------------------------------------------------------------------------

  /** Every connection has exactly one role; a ready one is authenticated with nothing pending; a busy one
      has exactly one obligation, a pending task or the handler under way; and nothing has ever been
      refused, overwritten or failed an assertion. */
  lemma {:induction false} RolesAlways(cfg: Config, run: seq<Step>, c: nat)
    requires Legal(cfg, run) && c < |cfg.confs|
    ensures var s := After(cfg, run);
            var p, k := s.pool, s.pool.At(c);
            && NoDup(p.ready) && NoDup(p.busy) && !(c in p.ready && c in p.busy)
            && (c in p.ready ==> k.state == Authenticated && k.pending == [] && k.article.None? && k.msgid == "")
            && (c in p.busy ==> |k.pending| + (if HandOf(s.io) == Some(c) then 1 else 0) == 1)
            && (c !in p.ready && c !in p.busy ==> Held(k).None? && (k.pending == [] || k.pending == [WritingQuit]))
            && k.hist.faults == 0
  {
    JointAlways(cfg, run);
    assert RoleOk(After(cfg, run).pool, HandOf(After(cfg, run).io), c);
  }

  // ---- Sessions and histories through every run ------------------------------------------------------

  ghost predicate Sound(k: Conn, conf: Conf)
  {
    CleanBuffer(k) && HistoryOk(k, conf.tls)
  }

  ghost predicate AllSound(cfg: Config, p: Pool)
  {
    && |p.conns| == |cfg.confs|
    && forall c :: 0 <= c < |p.conns| ==> Sound(p.conns[c], cfg.confs[c])
  }

  lemma OneSound(cfg: Config, p: Pool, c: nat, k: Conn)
    requires AllSound(cfg, p) && c < |p.conns| && Sound(k, cfg.confs[c])
    ensures AllSound(cfg, p.With(c, k))
  {
  }

  lemma StartSound(cfg: Config, p: Pool, c: nat, cmd: Command)
    requires AllSound(cfg, p) && c < |p.conns| && Quiet(p.conns[c]) && p.conns[c].state == Authenticated
    ensures AllSound(cfg, p.Start(c, cmd))
  {
    var k := p.conns[c];
    match cmd {
      case PostCmd(a) =>
        RequestsKeepHistory(k, a, "", cfg.confs[c].tls);
        OneSound(cfg, p, c, k.AsyncPost(a));
      case StatCmd(id) =>
        RequestsKeepHistory(k, 0, id, cfg.confs[c].tls);
        OneSound(cfg, p, c, k.AsyncStat(id));
    }
  }

  lemma DispatchSound(cfg: Config, p: Pool, hand: Option<nat>, cmd: Command)
    requires AllSound(cfg, p) && PoolOk(p, hand)
    ensures AllSound(cfg, p.DispatchOrQueue(cmd, false)) && AllSound(cfg, p.Push(cmd, false))
  {
    if p.ready != [] {
      var c := p.ready[0];
      assert c in p.ready && RoleOk(p, hand, c);
      StartSound(cfg, p.Arrive(cmd).(ready := p.ready[1..], busy := [c] + p.busy), c, cmd);
    }
  }

  lemma HangupSound(cfg: Config, p: Pool, c: nat)
    requires AllSound(cfg, p) && c < |p.conns| && Quiet(p.conns[c]) && p.conns[c].state == Authenticated
    ensures AllSound(cfg, p.Hangup(c))
  {
    ClosingKeepsHistory(p.conns[c], cfg.confs[c].tls);
    OneSound(cfg, p, c, p.conns[c].AsyncGracefulDisconnect());
  }

  lemma {:induction false} HangupReadySound(cfg: Config, p: Pool)
    requires AllSound(cfg, p) && PoolOk(p, None)
    ensures AllSound(cfg, p.HangupReady())
    decreases |p.ready|
  {
    if p.ready != [] {
      var c := p.ready[0];
      assert c in p.ready && RoleOk(p, None, c);
      HangupSound(cfg, p, c);
      HangupFirstKeeps(p);
      HangupReadySound(cfg, p.Hangup(c).(ready := p.ready[1..]));
    }
  }

  lemma BecomesReadySound(cfg: Config, p: Pool, c: nat)
    requires AllSound(cfg, p) && PoolOk(p, Some(c)) && p.At(c).state == Authenticated
    ensures AllSound(cfg, p.BecomesReady(c))
  {
    assert RoleOk(p, Some(c), c);
    if p.queue != [] {
      StartSound(cfg, p.(queue := p.queue[1..]), c, p.queue[0]);
    } else if !p.work {
      var p1 := p.(busy := Without(p.busy, c));
      HangupSound(cfg, p1, c);
      RequestsKeepWf(p.conns[c], 0, "");
      HandRetires(p, c, p.conns[c].AsyncGracefulDisconnect());
      HangupReadySound(cfg, p1.Hangup(c));
    }
  }

  lemma ClosingSound(cfg: Config, p: Pool, c: nat)
    requires AllSound(cfg, p) && c < |p.conns| && Quiet(p.conns[c])
    ensures AllSound(cfg, p.Reconnect(c)) && AllSound(cfg, p.With(c, p.At(c).Close()))
  {
    var k := p.conns[c];
    ClosingKeepsHistory(k, cfg.confs[c].tls);
    OneSound(cfg, p, c, k.Close());
    OneSound(cfg, p, c, k.Close().AsyncConnect());
  }

  lemma EnterSound(cfg: Config, p: Pool, c: nat, i: nat)
    requires AllSound(cfg, p) && PoolOk(p, None) && i < |p.At(c).pending| && p.At(c).Calls(p.At(c).pending[i])
    ensures AllSound(cfg, p.Enter(c, i)) && c < |p.conns| && Quiet(p.Enter(c, i).conns[c])
  {
    EnterKeeps(p, c, i);
    assert RoleOk(p, None, c);
    DeliverKeepsHistory(p.conns[c], cfg.confs[c].tls);
    OneSound(cfg, p, c, p.conns[c].Deliver(0));
  }

  lemma ProgressSound(cfg: Config, s: State, step: Step)
    requires Joint(cfg, s) && AllSound(cfg, s.pool) && Enabled(cfg, s, step) && step.Progress?
    ensures AllSound(cfg, Next(cfg, s, step).pool)
  {
    var c := step.conn;
    var k := s.pool.conns[c];
    ProgressKeeps(s.pool, c, step.i, step.ev, cfg.confs[c], s.main.arts);
    assert RoleOk(s.pool, None, c);
    CompleteKeepsClean(k, step.ev, cfg.confs[c], s.main.arts);
    CompleteKeepsHistory(k, step.ev, cfg.confs[c], s.main.arts);
    OneSound(cfg, s.pool, c, k.Complete(0, step.ev, cfg.confs[c], s.main.arts));
  }

  lemma ResubmitSound(cfg: Config, s: State, art: nat, d: Draw, after: Handler)
    requires AllSound(cfg, s.pool) && PoolOk(s.pool, HandOf(after))
    ensures AllSound(cfg, Resubmit(cfg, s, art, d, after).pool)
  {
    DispatchSound(cfg, s.pool, HandOf(after), PostCmd(art));
  }

  lemma PostDoneSound(cfg: Config, s: State, step: Step)
    requires Joint(cfg, s) && AllSound(cfg, s.pool) && Enabled(cfg, s, step) && step.PostDone?
    ensures AllSound(cfg, Next(cfg, s, step).pool)
  {
    var c, t := step.conn, s.pool.At(step.conn).pending[step.i];
    EnterKeeps(s.pool, c, step.i);
    EnterSound(cfg, s.pool, c, step.i);
    var p := s.pool.Enter(c, step.i);
    var s1 := s.(pool := p);
    match t.post {
      case PostingNotPermitted => ClosingSound(cfg, p, c);
      case PostFailure => ResubmitSound(cfg, s1, t.art.value, step.draw, BecomingReady(c));
      case PostConnectionError =>
        ClosingSound(cfg, p, c);
        ReconnectKeeps(p, c);
        ResubmitSound(cfg, s1.(pool := p.Reconnect(c)), t.art.value, step.draw, Idle);
      case PostSuccess => BecomesReadySound(cfg, p, c);
    }
  }

  lemma StatDoneSound(cfg: Config, s: State, step: Step)
    requires Joint(cfg, s) && AllSound(cfg, s.pool) && Enabled(cfg, s, step) && step.StatDone?
    ensures AllSound(cfg, Next(cfg, s, step).pool)
  {
    var c, t := step.conn, s.pool.At(step.conn).pending[step.i];
    EnterKeeps(s.pool, c, step.i);
    EnterSound(cfg, s.pool, c, step.i);
    var p := s.pool.Enter(c, step.i);
    if t.stat.StatConnectionError? {
      var cmd := StatCmd(t.id);
      DispatchSound(cfg, p, Some(c), cmd);
      DispatchKeepsHand(p, c, cmd);
      ClosingSound(cfg, if cfg.recheck then p.DispatchOrQueue(cmd, false) else p.Push(cmd, false), c);
    } else {
      BecomesReadySound(cfg, p, c);
    }
  }

  lemma ConnectedSound(cfg: Config, s: State, step: Step)
    requires Joint(cfg, s) && AllSound(cfg, s.pool) && Enabled(cfg, s, step) && step.Connected?
    ensures AllSound(cfg, Next(cfg, s, step).pool)
  {
    var c, i := step.conn, step.i;
    EnterKeeps(s.pool, c, i);
    EnterSound(cfg, s.pool, c, i);
    if s.pool.At(c).pending[i].connect.ConnectSuccess? {
      BecomesReadySound(cfg, s.pool.Enter(c, i), c);
    }
  }

  lemma SubmitSound(cfg: Config, s: State)
    requires AllSound(cfg, s.pool) && PoolOk(s.pool, HandOf(s.io)) && s.producer.next < cfg.Jobs()
    ensures AllSound(cfg, SubmitJob(cfg, s).pool)
  {
    var _, cmd := JobOf(cfg, s);
    DispatchSound(cfg, s.pool, HandOf(s.io), cmd);
  }

  lemma SoundNext(cfg: Config, s: State, step: Step)
    requires Joint(cfg, s) && AllSound(cfg, s.pool) && Enabled(cfg, s, step)
    ensures AllSound(cfg, Next(cfg, s, step).pool)
  {
    match step {
      case Submit => SubmitSound(cfg, s);
      case Wake => DispatchSound(cfg, s.pool, HandOf(s.io), s.producer.blocked.value);
      case Stop =>
      case Progress(_, _, _) => ProgressSound(cfg, s, step);
      case Connected(_, _) => ConnectedSound(cfg, s, step);
      case PostDone(_, _, _) => PostDoneSound(cfg, s, step);
      case StatDone(_, _) => StatDoneSound(cfg, s, step);
      case Resume =>
        match s.io {
          case Dispatching(a) => DispatchSound(cfg, s.pool, None, PostCmd(a));
          case BecomingReady(c) => BecomesReadySound(cfg, s.pool, c);
          case Reporting(_, _) =>
        }
      case Exit =>
    }
  }

  lemma FreshIsSound(conf: Conf)
    ensures Sound(FRESH.AsyncConnect(), conf)
  {
    var k := FRESH.AsyncConnect();
    assert k.hist.ops == [Op(Connect, 1, [], None)];
    assert k.pending == [RunConnect];
  }

  /** Through every run: nothing from an earlier session is left in a read buffer, and every accepted
      operation of every connection gets exactly one completion, with the outcome the network decided. */
  lemma {:induction false} SoundAlways(cfg: Config, run: seq<Step>)
    requires Legal(cfg, run)
    ensures AllSound(cfg, After(cfg, run).pool)
    decreases |run|
  {
    if run == [] {
      forall c | 0 <= c < |cfg.confs|
        ensures Sound(Init(cfg).pool.conns[c], cfg.confs[c])
      {
        FreshIsSound(cfg.confs[c]);
      }
    } else {
      var before := run[..|run| - 1];
      SoundAlways(cfg, before);
      JointAlways(cfg, before);
      SoundNext(cfg, After(cfg, before), run[|run| - 1]);
    }
  }

  /** A completed operation says what the network decided, to the handler of its kind. */
  predicate Decided(op: Op, tls: bool)
  {
    && op.result.Some? && op.result == ConnTheory.Outcome(op.kind, tls, op.seen)
    && HandlerFor(op.kind, op.result.value).Some?
  }

  lemma CompleteIsDecided(op: Op, tls: bool)
    requires ConnTheory.Complete(op, tls)
    ensures Decided(op, tls)
  {
    match op.kind {
      case Connect =>
      case Post(_) =>
      case Stat(_) =>
    }
  }

  lemma OneCompletion(k: Conn, conf: Conf, j: nat)
    requires Wf(k) && HistoryOk(k, conf.tls) && j < |k.hist.ops|
    ensures |k.hist.ops| - 1 <= |k.hist.called| <= |k.hist.ops|
    ensures OwnReplies(k.hist.ops[j])
    ensures j < |k.hist.called| ==> Decided(k.hist.ops[j], conf.tls) && CalledFor(k.hist.ops[j], k.hist.called[j])
    ensures k.hist.ops[j].result == ConnTheory.Outcome(k.hist.ops[j].kind, conf.tls, k.hist.ops[j].seen)
  {
    var op := k.hist.ops[j];
    if j < |k.hist.called| {
      assert ConnTheory.Complete(op, conf.tls);
      CompleteIsDecided(op, conf.tls);
    } else if IsInternal(k) {
      UnderWayNotOver(k.pending[0], op.kind, conf.tls, op.seen);
    }
  }

  /** Spelled out for the operations of one connection: handler calls were made for all but at most the last;
      each operation has a result as soon as the network has decided it, and that result; and each was
      decided on replies of its own session. */
  lemma {:induction false} OperationsAlways(cfg: Config, run: seq<Step>, c: nat, j: nat)
    requires Legal(cfg, run) && c < |cfg.confs| && j < |After(cfg, run).pool.At(c).hist.ops|
    ensures var h := After(cfg, run).pool.At(c).hist;
            && |h.ops| - 1 <= |h.called| <= |h.ops|
            && OwnReplies(h.ops[j])
            && h.ops[j].result == ConnTheory.Outcome(h.ops[j].kind, cfg.confs[c].tls, h.ops[j].seen)
            && (j < |h.called| ==> Decided(h.ops[j], cfg.confs[c].tls) && CalledFor(h.ops[j], h.called[j]))
  {
    SoundAlways(cfg, run);
    JointAlways(cfg, run);
    var s := After(cfg, run);
    assert RoleOk(s.pool, HandOf(s.io), c) && Sound(s.pool.conns[c], cfg.confs[c]);
    OneCompletion(s.pool.conns[c], cfg.confs[c], j);
  }

  // ---- Exit codes --------------------------------------------------------------------------------------

  ghost predicate ProducerOk(cfg: Config, s: State)
  {
    && s.producer.next <= cfg.Jobs()
    && (s.producer.stopped ==> s.producer.next == cfg.Jobs() && s.producer.blocked.None?)
    && |s.main.arts| == (if s.producer.next < |cfg.posts| then s.producer.next else |cfg.posts|)
  }

  lemma ProducerNext(cfg: Config, s: State, step: Step)
    requires ProducerOk(cfg, s) && Enabled(cfg, s, step)
    ensures ProducerOk(cfg, Next(cfg, s, step))
  {
    if step.PostDone? {
      PostDoneStore(cfg, s, step);
    }
  }

  lemma PostDoneStore(cfg: Config, s: State, step: Step)
    requires Enabled(cfg, s, step) && step.PostDone?
    ensures var s' := Next(cfg, s, step);
            |s'.main.arts| == |s.main.arts| && s'.producer == s.producer
  {
    var c, t := step.conn, s.pool.At(step.conn).pending[step.i];
    ResubmitStore(cfg, s.(pool := s.pool.Enter(c, step.i)), t.art.value, step.draw, BecomingReady(c));
    ResubmitStore(cfg, s.(pool := s.pool.Enter(c, step.i).Reconnect(c)), t.art.value, step.draw, Idle);
  }

  lemma ResubmitStore(cfg: Config, s: State, art: nat, d: Draw, after: Handler)
    ensures var s' := Resubmit(cfg, s, art, d, after);
            |s'.main.arts| == |s.main.arts| && s'.producer == s.producer
  {
  }

  lemma {:induction false} ProducerAlways(cfg: Config, run: seq<Step>)
    requires Legal(cfg, run)
    ensures ProducerOk(cfg, After(cfg, run))
    decreases |run|
  {
    if run != [] {
      ProducerAlways(cfg, run[..|run| - 1]);
      ProducerNext(cfg, After(cfg, run[..|run| - 1]), run[|run| - 1]);
    }
  }

  /** Total over the articles 0..n-1. */
  function PostedTo(posted: seq<Posted>, n: nat): nat
  {
    if n == 0 then 0 else PostedTo(posted, n - 1) + InPosted(posted, n - 1)
  }

  lemma {:induction false} PostedToCons(posted: seq<Posted>, n: nat)
    requires posted != []
    ensures PostedTo(posted, n) == PostedTo(posted[1..], n) + if posted[0].art < n then 1 else 0
  {
    if n > 0 {
      PostedToCons(posted, n - 1);
    }
  }

  lemma {:induction false} NothingPosted(n: nat)
    ensures PostedTo([], n) == 0
  {
    if n > 0 {
      NothingPosted(n - 1);
    }
  }

  lemma {:induction false} PostedIsTotal(posted: seq<Posted>, n: nat)
    requires forall a :: a >= n ==> InPosted(posted, a) == 0
    ensures |posted| == PostedTo(posted, n)
  {
    if posted == [] {
      NothingPosted(n);
    } else {
      assert InPosted(posted, posted[0].art) > 0;
      forall a | a >= n
        ensures InPosted(posted[1..], a) == 0
      {
        assert InPosted(posted, a) == 0;
      }
      PostedIsTotal(posted[1..], n);
      PostedToCons(posted, n);
    }
  }

  lemma {:induction false} AtMostOnce(s: State, n: nat)
    requires forall a :: Tally(s, a)
    ensures PostedTo(s.main.posted, n) <= n
  {
    if n > 0 {
      AtMostOnce(s, n - 1);
      assert Tally(s, n - 1);
    }
  }

  /** In every reachable state at most as many pieces are reported posted as were submitted: the number of
      pieces remaining never underflows. */
  lemma {:induction false} RemainingNeverUnderflows(cfg: Config, run: seq<Step>)
    requires Legal(cfg, run)
    ensures var s := After(cfg, run);
            s.main.numPosted == |s.main.posted| <= |s.main.arts| <= |cfg.posts|
  {
    var s := After(cfg, run);
    AllTallied(cfg, run);
    QueueBound(cfg, run);
    ProducerAlways(cfg, run);
    forall a | a >= |s.main.arts|
      ensures InPosted(s.main.posted, a) == 0
    {
      assert Tally(s, a);
    }
    PostedIsTotal(s.main.posted, |s.main.arts|);
    AtMostOnce(s, |s.main.arts|);
  }

  /** join() has returned: nothing is pending anywhere. */
  ghost predicate AtRest(cfg: Config, s: State)
  {
    && s.producer.stopped && s.producer.blocked.None? && s.io.Idle? && !s.pool.work && s.pool.Quiescent()
    && s.exit == Some(if s.pool.queue == [] then EXIT_OK else EXIT_FAILED)
  }

  /** A run that exits does so at the end of main, or in the handler of a failed post. */
  lemma ExitedHow(cfg: Config, run: seq<Step>)
    requires Legal(cfg, run) && After(cfg, run).exit.Some?
    ensures AtRest(cfg, After(cfg, run)) || (After(cfg, run).io.Dying? && After(cfg, run).exit != Some(EXIT_OK))
  {
    var before, last := run[..|run| - 1], run[|run| - 1];
    var s := After(cfg, before);
    assert s.exit.None?;
    match last {
      case PostDone(c, i, d) =>
      case Exit =>
      case _ =>
    }
  }

  lemma {:induction false} NothingHeldAtRest(ks: seq<Conn>, a: nat)
    requires forall c :: 0 <= c < |ks| ==> Wf(ks[c]) && ks[c].pending == []
    ensures Sum(Holding(a), ks) == 0
  {
    if ks != [] {
      assert Wf(ks[0]);
      NothingHeldAtRest(ks[1..], a);
    }
  }

  /** The places left for an article at rest: posted, or in the queue. */
  lemma AtRestPlaces(cfg: Config, s: State, a: nat)
    requires Joint(cfg, s) && Tally(s, a) && AtRest(cfg, s)
    ensures InCommands(s.pool.queue, a) + InPosted(s.main.posted, a) == if a < |s.main.arts| then 1 else 0
  {
    forall c | 0 <= c < |s.pool.conns|
      ensures Wf(s.pool.conns[c]) && s.pool.conns[c].pending == []
    {
      assert RoleOk(s.pool, HandOf(s.io), c);
    }
    NothingHeldAtRest(s.pool.conns, a);
  }

  /** Exit code 0: every piece was submitted and is reported posted exactly once. */
  lemma {:induction false} ExitOk(cfg: Config, run: seq<Step>, a: nat)
    requires Legal(cfg, run) && After(cfg, run).exit == Some(EXIT_OK)
    ensures var m := After(cfg, run).main;
            && InPosted(m.posted, a) == (if a < |cfg.posts| then 1 else 0)
            && |m.arts| == |cfg.posts| == m.numPosted == |m.posted|
  {
    var s := After(cfg, run);
    ExitedHow(cfg, run);
    JointAlways(cfg, run);
    AllTallied(cfg, run);
    ProducerAlways(cfg, run);
    RemainingNeverUnderflows(cfg, run);
    AtRestPlaces(cfg, s, a);
    PostedExactly(cfg, s, |s.main.arts|);
    forall b | b >= |s.main.arts|
      ensures InPosted(s.main.posted, b) == 0
    {
      assert Tally(s, b);
    }
    PostedIsTotal(s.main.posted, |s.main.arts|);
  }

  lemma {:induction false} PostedExactly(cfg: Config, s: State, n: nat)
    requires Joint(cfg, s) && AtRest(cfg, s) && s.pool.queue == [] && n <= |s.main.arts|
    requires forall a :: Tally(s, a)
    ensures PostedTo(s.main.posted, n) == n
  {
    if n > 0 {
      PostedExactly(cfg, s, n - 1);
      assert Tally(s, n - 1);
      AtRestPlaces(cfg, s, n - 1);
    }
  }

  /** A run that comes back from join() exits 0 if and only if every piece is reported posted and no STAT is
      left in the queue. */
  lemma {:induction false} ExitAtRestIff(cfg: Config, run: seq<Step>)
    requires Legal(cfg, run) && AtRest(cfg, After(cfg, run))
    ensures var s := After(cfg, run);
            s.exit == Some(EXIT_OK) <==> |s.main.posted| == |cfg.posts| && OnlyPosts(s.pool.queue)
  {
    var s := After(cfg, run);
    if s.exit == Some(EXIT_OK) {
      ExitOk(cfg, run, 0);
    } else if OnlyPosts(s.pool.queue) {
      assert s.pool.queue[0].PostCmd?;
      var a := s.pool.queue[0].art;
      JointAlways(cfg, run);
      AllTallied(cfg, run);
      assert Tally(s, a);
      AtRestPlaces(cfg, s, a);
      RemainingNeverUnderflows(cfg, run);
      forall b | b >= |s.main.arts|
        ensures InPosted(s.main.posted, b) == 0
      {
        assert Tally(s, b);
      }
      PostedIsTotal(s.main.posted, |s.main.arts|);
      OneMissing(s, |s.main.arts|, a);
    }
  }

  lemma {:induction false} OneMissing(s: State, n: nat, a: nat)
    requires forall b :: Tally(s, b)
    requires a < n && InPosted(s.main.posted, a) == 0
    ensures PostedTo(s.main.posted, n) < n
  {
    assert Tally(s, n - 1);
    if a == n - 1 {
      AtMostOnce(s, n - 1);
    } else {
      OneMissing(s, n - 1, a);
    }
  }
}
