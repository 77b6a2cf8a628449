/** Exactly which runs without a failure lose an article: the exit code of a run in which the network did
    everything right. */
module ExitTheory {
  import opened Text
  import opened Message
  import opened ConnModel
  import opened ConnTheory
  import opened PoolModel
  import opened PoolTheory
  import opened PoolCounts
  import opened RunTheory
  import opened TallyTheory
  import opened BudgetTheory
  import opened FifoTheory
  import opened ProgressTheory
  import opened ReachTheory

  /** No post failed and none was refused. */
  predicate Unfailed(m: Main)
  {
    m.failed == [] && m.refused == []
  }

  /** The connection has logged in at some time. */
  predicate Used(k: Conn)
  {
    k.state == Authenticated || (k.state == Busy && k.pending != []) || Gone(k)
  }

  /** It has hung up, or is about to. */
  predicate Gone(k: Conn)
  {
    k.pending == [WritingQuit] || (k.pending == [] && k.state == Disconnected)
  }

  ghost predicate Nobody(p: Pool)
  {
    forall c :: 0 <= c < |p.conns| ==> !Used(p.conns[c])
  }

  /** While nothing has failed, a connection hangs up only when there is nothing left to do, and commands are
      started only on connections that have logged in. */
  ghost predicate HangupOk(p: Pool, stopped: bool)
  {
    && (forall c :: 0 <= c < |p.conns| && Gone(p.conns[c]) ==> stopped && p.queue == [])
    && (Nobody(p) ==> p.started == [])
  }

  ghost predicate Tidy(s: State)
  {
    Unfailed(s.main) && s.exit != Some(EXIT_CRASH) ==> HangupOk(s.pool, s.producer.stopped)
  }

  // ---- The operations of the pool ---------------------------------------------------------------------------

  /** One connection changes, and does not hang up. */
  lemma OneChanges(p: Pool, c: nat, k: Conn, stopped: bool)
    requires HangupOk(p, stopped) && c < |p.conns| && (Gone(k) ==> Gone(p.conns[c])) && (Used(p.conns[c]) ==> Used(k))
    ensures HangupOk(p.With(c, k), stopped)
  {
    var q := p.With(c, k);
    if Nobody(q) {
      forall x | 0 <= x < |p.conns|
        ensures !Used(p.conns[x])
      {
        assert !Used(q.conns[x]);
      }
    }
  }

  lemma StartTidy(p: Pool, c: nat, cmd: Command, stopped: bool)
    requires HangupOk(p, stopped) && c < |p.conns| && Quiet(p.conns[c]) && p.conns[c].state == Authenticated
    ensures HangupOk(p.Start(c, cmd), stopped)
  {
    var q := p.Start(c, cmd);
    assert |q.conns[c].pending| == 1 && !q.conns[c].pending[0].WritingQuit? && Used(q.conns[c]);
    forall x | 0 <= x < |q.conns| && Gone(q.conns[x])
      ensures stopped && q.queue == []
    {
      assert Gone(p.conns[x]);
    }
  }

  /** Without connections that hung up, the queue may grow. */
  lemma DispatchTidy(p: Pool, hand: Option<nat>, cmd: Command)
    requires PoolOk(p, hand) && HangupOk(p, false)
    ensures HangupOk(p.DispatchOrQueue(cmd, false), false) && HangupOk(p.Push(cmd, false), false)
  {
    if p.ready != [] {
      var c := p.ready[0];
      assert c in p.ready && RoleOk(p, hand, c);
      StartTidy(p.Arrive(cmd).(ready := p.ready[1..], busy := [c] + p.busy), c, cmd, false);
    } else {
      assert p.DispatchOrQueue(cmd, false) == p.Push(cmd, false);
    }
    assert p.Push(cmd, false).conns == p.conns;
  }

  lemma HangupTidy(p: Pool, c: nat)
    requires HangupOk(p, true) && p.queue == [] && c < |p.conns| && p.conns[c].state == Authenticated && p.conns[c].pending == []
    ensures HangupOk(p.Hangup(c), true)
  {
    var q := p.Hangup(c);
    assert Used(q.conns[c]);
  }

  lemma {:induction false} HangupReadyTidy(p: Pool)
    requires HangupOk(p, true) && p.queue == [] && PoolOk(p, None)
    ensures HangupOk(p.HangupReady(), true)
    decreases |p.ready|
  {
    if p.ready != [] {
      var c := p.ready[0];
      assert c in p.ready && RoleOk(p, None, c);
      HangupTidy(p, c);
      HangupFirstKeeps(p);
      HangupReadyTidy(p.Hangup(c).(ready := p.ready[1..]));
    }
  }

  lemma BecomesReadyTidy(p: Pool, c: nat, stopped: bool)
    requires PoolOk(p, Some(c)) && p.At(c).state == Authenticated
    requires HangupOk(p, stopped) && (!p.work ==> stopped)
    ensures HangupOk(p.BecomesReady(c), stopped)
  {
    assert RoleOk(p, Some(c), c);
    if p.queue != [] {
      assert forall x :: 0 <= x < |p.conns| ==> !Gone(p.conns[x]);
      StartTidy(p.(queue := p.queue[1..]), c, p.queue[0], stopped);
    } else if !p.work {
      var p1 := p.(busy := Without(p.busy, c));
      HangupTidy(p1, c);
      RequestsKeepWf(p.conns[c], 0, "");
      HandRetires(p, c, p.conns[c].AsyncGracefulDisconnect());
      HangupReadyTidy(p1.Hangup(c));
    }
  }

  lemma EnterTidy(p: Pool, c: nat, i: nat, stopped: bool)
    requires PoolOk(p, None) && i < |p.At(c).pending| && p.At(c).Calls(p.At(c).pending[i]) && HangupOk(p, stopped)
    ensures HangupOk(p.Enter(c, i), stopped)
  {
    EnterKeeps(p, c, i);
    OneChanges(p, c, p.conns[c].Deliver(0), stopped);
  }

  // ---- The steps --------------------------------------------------------------------------------------------

  lemma ProgressTidy(cfg: Config, s: State, step: Step)
    requires Joint(cfg, s) && Tidy(s) && Enabled(cfg, s, step) && step.Progress?
    ensures Tidy(Next(cfg, s, step))
  {
    var c := step.conn;
    ProgressKeeps(s.pool, c, step.i, step.ev, cfg.confs[c], s.main.arts);
    if Unfailed(s.main) {
      assert RoleOk(s.pool, None, c);
      CompleteUses(s.pool.conns[c], step.ev, cfg.confs[c], s.main.arts);
      OneChanges(s.pool, c, s.pool.conns[c].Complete(0, step.ev, cfg.confs[c], s.main.arts), s.producer.stopped);
    }
  }

  /** Completing a task neither hangs a connection up nor makes it one that never logged in. */
  lemma CompleteUses(k: Conn, ev: Event, conf: Conf, store: seq<Article>)
    requires Wf(k) && k.CanComplete(0, ev)
    ensures var k' := k.Complete(0, ev, conf, store);
            (Gone(k') ==> Gone(k)) && (Used(k) ==> Used(k'))
  {
    CompleteKeepsWf(k, ev, conf, store);
    var t, k' := k.pending[0], k.Complete(0, ev, conf, store);
    if t.WritingQuit? {
      assert k.pending == [WritingQuit];
    }
  }

  lemma SubmitTidy(cfg: Config, s: State)
    requires Joint(cfg, s) && Tidy(s) && Orderly(cfg, s) && Enabled(cfg, s, Submit)
    ensures Tidy(Next(cfg, s, Submit))
  {
    var n := s.producer.next;
    if Unfailed(s.main) {
      DispatchTidy(s.pool, HandOf(s.io), if n < |cfg.posts| then PostCmd(|s.main.arts|) else StatCmd(cfg.stats[n - |cfg.posts|]));
    }
  }

  lemma WakeTidy(cfg: Config, s: State)
    requires Joint(cfg, s) && Tidy(s) && ProducerOk(cfg, s) && Enabled(cfg, s, Wake)
    ensures Tidy(Next(cfg, s, Wake))
  {
    if Unfailed(s.main) {
      DispatchTidy(s.pool, HandOf(s.io), s.producer.blocked.value);
    }
  }

  lemma ConnectedTidy(cfg: Config, s: State, step: Step)
    requires Joint(cfg, s) && Tidy(s) && FlagOk(s) && Enabled(cfg, s, step) && step.Connected?
    ensures Tidy(Next(cfg, s, step))
  {
    var c, i := step.conn, step.i;
    if Unfailed(s.main) {
      EnterKeeps(s.pool, c, i);
      EnterTidy(s.pool, c, i, s.producer.stopped);
      if s.pool.At(c).pending[i].connect.ConnectSuccess? {
        BecomesReadyTidy(s.pool.Enter(c, i), c, s.producer.stopped);
      }
    }
  }

  /** A post that failed or was refused is on record; only an assertion that fails leaves no record. */
  lemma FailureIsRecorded(cfg: Config, s: State, art: nat, d: Draw, after: Handler)
    ensures var s' := Resubmit(cfg, s, art, d, after);
            if Judge(s.main, art) == Crash then s'.exit == Some(EXIT_CRASH) else s'.main.failed != []
    ensures Resubmit(cfg, s, art, d, after).producer == s.producer
  {
  }

  lemma PostDoneTidy(cfg: Config, s: State, step: Step)
    requires Joint(cfg, s) && Tidy(s) && FlagOk(s) && Enabled(cfg, s, step) && step.PostDone?
    ensures Tidy(Next(cfg, s, step))
  {
    var c, t := step.conn, s.pool.At(step.conn).pending[step.i];
    var stopped := s.producer.stopped;
    if Unfailed(s.main) {
      EnterKeeps(s.pool, c, step.i);
      EnterTidy(s.pool, c, step.i, stopped);
      var p := s.pool.Enter(c, step.i);
      match t.post {
        case PostingNotPermitted =>
        case PostFailure => FailureIsRecorded(cfg, s.(pool := p), t.art.value, step.draw, BecomingReady(c));
        case PostConnectionError => FailureIsRecorded(cfg, s.(pool := p.Reconnect(c)), t.art.value, step.draw, Idle);
        case PostSuccess => BecomesReadyTidy(p, c, stopped);
      }
    } else {
      RecordsGrow(cfg, s, step);
    }
  }

  lemma RecordsGrow(cfg: Config, s: State, step: Step)
    requires Enabled(cfg, s, step) && !Unfailed(s.main)
    ensures !Unfailed(Next(cfg, s, step).main)
  {
    if step.PostDone? {
      var c, t := step.conn, s.pool.At(step.conn).pending[step.i];
      var p := s.pool.Enter(c, step.i);
      FailureIsRecorded(cfg, s.(pool := p), t.art.value, step.draw, BecomingReady(c));
      FailureIsRecorded(cfg, s.(pool := p.Reconnect(c)), t.art.value, step.draw, Idle);
    }
  }

  lemma ResumeTidy(cfg: Config, s: State)
    requires Joint(cfg, s) && Tidy(s) && FlagOk(s) && Bounded(cfg, s) && Enabled(cfg, s, Resume)
    ensures Tidy(Next(cfg, s, Resume))
  {
    if Unfailed(s.main) && s.io.BecomingReady? {
      BecomesReadyTidy(s.pool, s.io.conn, s.producer.stopped);
    }
  }

  lemma TidyNext(cfg: Config, s: State, step: Step)
    requires Joint(cfg, s) && Tidy(s) && FlagOk(s) && Orderly(cfg, s) && ProducerOk(cfg, s) && Bounded(cfg, s)
    requires cfg.stats == [] && PostOnly(s) && Enabled(cfg, s, step)
    ensures Tidy(Next(cfg, s, step))
  {
    PostOnlyNext(cfg, s, step);
    match step {
      case Submit => SubmitTidy(cfg, s);
      case Wake => WakeTidy(cfg, s);
      case Stop =>
      case Progress(_, _, _) => ProgressTidy(cfg, s, step);
      case Connected(_, _) => ConnectedTidy(cfg, s, step);
      case PostDone(_, _, _) => PostDoneTidy(cfg, s, step);
      case Resume => ResumeTidy(cfg, s);
      case Exit =>
    }
  }

  lemma {:induction false} TidyAlways(cfg: Config, run: seq<Step>)
    requires Legal(cfg, run) && cfg.stats == [] && cfg.confs != []
    ensures Tidy(After(cfg, run))
    decreases |run|
  {
    if run == [] {
      assert forall c :: 0 <= c < |Init(cfg).pool.conns| ==> Init(cfg).pool.conns[c].pending == [RunConnect];
    } else {
      var before := run[..|run| - 1];
      TidyAlways(cfg, before);
      JointAlways(cfg, before);
      WorkIff(cfg, before);
      OrderlyAlways(cfg, before);
      ProducerAlways(cfg, before);
      QueueBound(cfg, before);
      MeasureAlong(cfg, before);
      TidyNext(cfg, After(cfg, before), run[|run| - 1]);
    }
  }

  // ---- The exit ---------------------------------------------------------------------------------------------

  /** At rest an unfailed run has dealt with everything, or some connection is idle, or none ever logged in. */
  lemma {:induction false} UnfailedRest(cfg: Config, run: seq<Step>)
    requires Legal(cfg, run) && cfg.stats == [] && cfg.confs != []
    requires AtRest(cfg, After(cfg, run)) && Unfailed(After(cfg, run).main)
    ensures var p := After(cfg, run).pool;
            if Nobody(p) then p.started == [] else p.queue == [] || p.ready != []
  {
    var s := After(cfg, run);
    TidyAlways(cfg, run);
    JointAlways(cfg, run);
    if !Nobody(s.pool) {
      var c :| 0 <= c < |s.pool.conns| && Used(s.pool.conns[c]);
      assert RoleOk(s.pool, None, c) && s.pool.conns[c].pending == [];
      if !Gone(s.pool.conns[c]) {
        assert c in s.pool.ready;
      }
    }
  }

  /** Nothing was ever started: everything submitted is in the queue. */
  lemma {:induction false} NothingStarted(cfg: Config, run: seq<Step>)
    requires Legal(cfg, run) && cfg.stats == []
    requires AtRest(cfg, After(cfg, run)) && After(cfg, run).pool.started == []
    ensures After(cfg, run).pool.queue == [] <==> cfg.posts == []
  {
    var s := After(cfg, run);
    JointAlways(cfg, run);
    ProducerAlways(cfg, run);
    if cfg.posts != [] {
      TallyAlways(cfg, run, 0);
      AtRestPlaces(cfg, s, 0);
    } else {
      NothingQueued(cfg, run);
    }
  }

  lemma {:induction false} NothingQueued(cfg: Config, run: seq<Step>)
    requires Legal(cfg, run) && cfg.stats == [] && cfg.posts == []
    ensures After(cfg, run).pool.queue == []
  {
    var q := After(cfg, run).pool.queue;
    assert q != [] && q[0].PostCmd? ==> InCommands(q, q[0].art) > 0;
    MeasureAlong(cfg, run);
    ProducerAlways(cfg, run);
    AllTallied(cfg, run);
    forall a: nat
      ensures InCommands(q, a) == 0
    {
      assert Tally(After(cfg, run), a);
    }
  }

  /** The exact condition: a run of posts in which nothing failed and at least one connection logged in ends
      with exit code 0 if and only if at the end no article lies beside an idle connection. */
  lemma {:induction false} UnfailedExitIff(cfg: Config, run: seq<Step>)
    requires Legal(cfg, run) && cfg.stats == [] && cfg.confs != []
    requires AtRest(cfg, After(cfg, run)) && Unfailed(After(cfg, run).main)
    ensures var s := After(cfg, run);
            s.exit == Some(EXIT_OK) <==> cfg.posts == [] || (Exclusive(s.pool) && !Nobody(s.pool))
  {
    UnfailedRest(cfg, run);
    if cfg.posts == [] {
      NothingQueued(cfg, run);
    } else if Nobody(After(cfg, run).pool) {
      NothingStarted(cfg, run);
    }
  }

  /** With the second look at the ready list no such run loses an article: it exits 0, every piece posted once. */
  lemma {:induction false} RecheckLosesNothing(cfg: Config, run: seq<Step>, a: nat)
    requires Legal(cfg, run) && cfg.stats == [] && cfg.confs != [] && cfg.recheck
    requires AtRest(cfg, After(cfg, run)) && Unfailed(After(cfg, run).main) && !Nobody(After(cfg, run).pool)
    ensures After(cfg, run).exit == Some(EXIT_OK)
    ensures InPosted(After(cfg, run).main.posted, a) == if a < |cfg.posts| then 1 else 0
  {
    UnfailedExitIff(cfg, run);
    RecheckRestores(cfg, run);
    ExclusionNow(cfg, run);
    ExitOk(cfg, run, a);
  }
}
