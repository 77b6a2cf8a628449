/** How many POSTs a run can start, and that every post-only run ends. */
module BudgetTheory {
  import opened Text
  import opened Message
  import opened ConnModel
  import opened ConnTheory
  import opened PoolModel
  import opened PoolTheory
  import opened PoolCounts
  import opened RunTheory
  import opened TallyTheory
  import opened IdTheory

  // ---- At most 3N + C POSTs -----------------------------------------------------------------------------

  /** Three starts for every article, and one more for every refusal it met. */
  lemma Tries(cfg: Config, s: State, a: nat)
    requires IdsOk(cfg, s) && Tally(s, a)
    ensures InCommands(s.pool.started, a) <= 3 + InList(s.main.refused, a)
    ensures a >= |s.main.arts| ==> InCommands(s.pool.started, a) == 0
  {
  }

  /** Total over the articles 0..n-1. */
  function CommandsTo(cmds: seq<Command>, n: nat): nat
  {
    if n == 0 then 0 else CommandsTo(cmds, n - 1) + InCommands(cmds, n - 1)
  }

  function ListTo(s: seq<nat>, n: nat): nat
  {
    if n == 0 then 0 else ListTo(s, n - 1) + InList(s, n - 1)
  }

  /** How many of the commands are POSTs. */
  function Posts(cmds: seq<Command>): nat
  {
    if cmds == [] then 0 else (if cmds[0].PostCmd? then 1 else 0) + Posts(cmds[1..])
  }

  lemma {:induction false} CommandsToCons(cmds: seq<Command>, n: nat)
    requires cmds != []
    ensures CommandsTo(cmds, n)
         == CommandsTo(cmds[1..], n) + if cmds[0].PostCmd? && cmds[0].art < n then 1 else 0
  {
    if n > 0 {
      CommandsToCons(cmds, n - 1);
    }
  }

  lemma {:induction false} ListToCons(s: seq<nat>, n: nat)
    requires s != []
    ensures ListTo(s, n) == ListTo(s[1..], n) + if s[0] < n then 1 else 0
  {
    if n > 0 {
      ListToCons(s, n - 1);
    }
  }

  lemma {:induction false} NoCommands(n: nat)
    ensures CommandsTo([], n) == 0 && ListTo([], n) == 0
  {
    if n > 0 {
      NoCommands(n - 1);
    }
  }

  lemma {:induction false} PostsAreTotal(cmds: seq<Command>, n: nat)
    requires forall a :: a >= n ==> InCommands(cmds, a) == 0
    ensures Posts(cmds) == CommandsTo(cmds, n)
  {
    if cmds == [] {
      NoCommands(n);
    } else {
      assert cmds[0].PostCmd? ==> InCommands(cmds, cmds[0].art) > 0;
      forall a | a >= n
        ensures InCommands(cmds[1..], a) == 0
      {
        assert InCommands(cmds, a) == 0;
      }
      PostsAreTotal(cmds[1..], n);
      CommandsToCons(cmds, n);
    }
  }

  lemma {:induction false} ListToAtMost(s: seq<nat>, n: nat)
    ensures ListTo(s, n) <= |s|
  {
    if s == [] {
      NoCommands(n);
    } else {
      ListToAtMost(s[1..], n);
      ListToCons(s, n);
    }
  }

  lemma {:induction false} TotalTries(cfg: Config, s: State, n: nat)
    requires IdsOk(cfg, s) && forall a :: Tally(s, a)
    ensures CommandsTo(s.pool.started, n) <= 3 * n + ListTo(s.main.refused, n)
  {
    if n > 0 {
      TotalTries(cfg, s, n - 1);
      Tries(cfg, s, n - 1);
    }
  }

  lemma PostsBound(cfg: Config, s: State)
    requires IdsOk(cfg, s) && Bounded(cfg, s) && forall a :: Tally(s, a)
    ensures Posts(s.pool.started) <= 3 * |cfg.posts| + |cfg.confs|
  {
    var n := |s.main.arts|;
    forall a | a >= n
      ensures InCommands(s.pool.started, a) == 0
    {
      Tries(cfg, s, a);
    }
    PostsAreTotal(s.pool.started, n);
    TotalTries(cfg, s, n);
    ListToAtMost(s.main.refused, n);
  }

  /** For N pieces and C connections no run starts more than 3N + C POSTs, STATs or not. */
  lemma {:induction false} DispatchBound(cfg: Config, run: seq<Step>)
    requires ValidConfig(cfg) && Legal(cfg, run)
    ensures Posts(After(cfg, run).pool.started) <= 3 * |cfg.posts| + |cfg.confs|
  {
    var s := After(cfg, run);
    IdsAlways(cfg, run);
    QueueBound(cfg, run);
    forall a
      ensures Tally(s, a)
    {
      TallyAlways(cfg, run, a);
    }
    PostsBound(cfg, s);
  }

  // ---- Post-only runs -------------------------------------------------------------------------------------

  predicate OnlyPosts(cmds: seq<Command>)
  {
    forall i :: 0 <= i < |cmds| ==> cmds[i].PostCmd?
  }

  ghost predicate NoStat(k: Conn)
  {
    forall i :: 0 <= i < |k.pending| ==> !StatTask(k.pending[i])
  }

  ghost predicate PoolPostOnly(p: Pool)
  {
    && OnlyPosts(p.queue) && OnlyPosts(p.started)
    && forall c :: 0 <= c < |p.conns| ==> NoStat(p.conns[c])
  }

  ghost predicate PostOnly(s: State)
  {
    PoolPostOnly(s.pool) && (s.producer.blocked.Some? ==> s.producer.blocked.value.PostCmd?)
  }

  lemma {:induction false} AllArePosts(cmds: seq<Command>)
    requires OnlyPosts(cmds)
    ensures Posts(cmds) == |cmds|
  {
    if cmds != [] {
      AllArePosts(cmds[1..]);
    }
  }

  lemma WithPostOnly(p: Pool, c: nat, k: Conn)
    requires PoolPostOnly(p) && NoStat(k)
    ensures PoolPostOnly(p.With(c, k))
  {
  }

  lemma StartPostOnly(p: Pool, c: nat, art: nat)
    requires PoolPostOnly(p)
    ensures PoolPostOnly(p.Start(c, PostCmd(art)))
  {
    if c < |p.conns| {
      assert NoStat(p.conns[c]);
      WithPostOnly(p, c, p.conns[c].AsyncPost(art));
    }
  }

  lemma DispatchPostOnly(p: Pool, art: nat)
    requires PoolPostOnly(p)
    ensures PoolPostOnly(p.DispatchOrQueue(PostCmd(art), false)) && PoolPostOnly(p.Push(PostCmd(art), false))
  {
    if p.ready != [] {
      StartPostOnly(p.Arrive(PostCmd(art)).(ready := p.ready[1..], busy := [p.ready[0]] + p.busy), p.ready[0], art);
    }
  }

  lemma {:induction false} HangupPostOnly(p: Pool)
    requires PoolPostOnly(p)
    ensures PoolPostOnly(p.HangupReady())
    decreases |p.ready|
  {
    if p.ready != [] {
      var c := p.ready[0];
      if c < |p.conns| {
        assert NoStat(p.conns[c]);
        WithPostOnly(p, c, p.conns[c].AsyncGracefulDisconnect());
      }
      HangupPostOnly(p.Hangup(c).(ready := p.ready[1..]));
    }
  }

  lemma BecomesReadyPostOnly(p: Pool, c: nat)
    requires PoolPostOnly(p)
    ensures PoolPostOnly(p.BecomesReady(c))
  {
    if p.queue != [] {
      assert p.queue[0].PostCmd?;
      StartPostOnly(p.(queue := p.queue[1..]), c, p.queue[0].art);
    } else if !p.work {
      if c < |p.conns| {
        assert NoStat(p.conns[c]);
        WithPostOnly(p.(busy := Without(p.busy, c)), c, p.conns[c].AsyncGracefulDisconnect());
      }
      HangupPostOnly(p.(busy := Without(p.busy, c)).Hangup(c));
    }
  }

  lemma ConnPostOnly(p: Pool, c: nat, i: nat)
    requires PoolPostOnly(p) && i < |p.At(c).pending|
    ensures PoolPostOnly(p.Enter(c, i)) && !p.At(c).pending[i].StatDone?
    ensures PoolPostOnly(p.Enter(c, i).Reconnect(c))
    ensures PoolPostOnly(p.Enter(c, i).With(c, p.Enter(c, i).At(c).Close()))
  {
    assert c < |p.conns| && NoStat(p.conns[c]);
    assert !StatTask(p.conns[c].pending[i]);
    WithPostOnly(p, c, p.conns[c].Deliver(i));
    var q := p.Enter(c, i);
    assert NoStat(q.conns[c]);
    WithPostOnly(q, c, q.conns[c].Close().AsyncConnect());
    WithPostOnly(q, c, q.conns[c].Close());
  }

  lemma ProgressPostOnly(cfg: Config, s: State, step: Step)
    requires Joint(cfg, s) && PostOnly(s) && Enabled(cfg, s, step) && step.Progress?
    ensures PostOnly(Next(cfg, s, step))
  {
    var c := step.conn;
    ProgressKeeps(s.pool, c, step.i, step.ev, cfg.confs[c], s.main.arts);
    assert NoStat(s.pool.conns[c]) && RoleOk(s.pool, None, c);
    var k' := s.pool.conns[c].Complete(0, step.ev, cfg.confs[c], s.main.arts);
    CompleteStat(s.pool.conns[c], step.ev, cfg.confs[c], s.main.arts);
    WithPostOnly(s.pool, c, k');
  }

  lemma CompleteStat(k: Conn, ev: Event, conf: Conf, store: seq<Article>)
    requires Wf(k) && k.CanComplete(0, ev) && NoStat(k)
    ensures NoStat(k.Complete(0, ev, conf, store))
  {
    assert !StatTask(k.pending[0]);
    CompleteLowers(k, ev, conf, store);
  }

  lemma PostDonePostOnly(cfg: Config, s: State, step: Step)
    requires PostOnly(s) && Enabled(cfg, s, step) && step.PostDone?
    ensures PostOnly(Next(cfg, s, step))
  {
    var c, t := step.conn, s.pool.At(step.conn).pending[step.i];
    ConnPostOnly(s.pool, c, step.i);
    var p := s.pool.Enter(c, step.i);
    match t.post {
      case PostingNotPermitted =>
      case PostFailure => DispatchPostOnly(p, t.art.value);
      case PostConnectionError => DispatchPostOnly(p.Reconnect(c), t.art.value);
      case PostSuccess => BecomesReadyPostOnly(p, c);
    }
  }

  lemma PostOnlyNext(cfg: Config, s: State, step: Step)
    requires cfg.stats == [] && Joint(cfg, s) && PostOnly(s) && Enabled(cfg, s, step)
    ensures PostOnly(Next(cfg, s, step)) && !step.StatDone?
  {
    match step {
      case Submit => DispatchPostOnly(s.pool, |s.main.arts|);
      case Wake => DispatchPostOnly(s.pool, s.producer.blocked.value.art);
      case Stop =>
      case Progress(_, _, _) => ProgressPostOnly(cfg, s, step);
      case Connected(c, i) =>
        ConnPostOnly(s.pool, c, i);
        BecomesReadyPostOnly(s.pool.Enter(c, i), c);
      case PostDone(_, _, _) => PostDonePostOnly(cfg, s, step);
      case StatDone(c, i) => ConnPostOnly(s.pool, c, i);
      case Resume =>
        match s.io {
          case Dispatching(a) => DispatchPostOnly(s.pool, a);
          case BecomingReady(c) => BecomesReadyPostOnly(s.pool, c);
          case Reporting(_, _) =>
        }
      case Exit =>
    }
  }

  // ---- The measure ----------------------------------------------------------------------------------------

  function HandlerRank(h: Handler): nat
  {
    if h.Idle? || h.Dying? then 0 else 1
  }

  function ProducerRank(cfg: Config, p: Producer): int
  {
    2 * (cfg.Jobs() - p.next) + (if p.blocked.Some? then 1 else 0) + (if p.stopped then 0 else 1)
  }

  /** POSTs that may still be started, callbacks in front of the connections, the rest of the handler and of
      the producer, and the exit. */
  function Measure(cfg: Config, s: State): int
  {
    30 * (3 * |cfg.posts| + |cfg.confs| - |s.pool.started|) + Ranks(s.pool) + HandlerRank(s.io)
    + ProducerRank(cfg, s.producer) + (if s.exit.None? then 1 else 0)
  }

  lemma ResubmitFalls(cfg: Config, s: State, art: nat, d: Draw, after: Handler)
    requires PoolOk(s.pool, HandOf(after)) && (after.Idle? || after.BecomingReady?) && s.exit.None?
    ensures Measure(cfg, Resubmit(cfg, s, art, d, after)) <= Measure(cfg, s) + 1
  {
    DispatchCounts(s.pool, HandOf(after), PostCmd(art), false, 0);
  }

  lemma BecomesReadyFalls(cfg: Config, s: State, c: nat)
    requires PoolOk(s.pool, Some(c)) && s.pool.At(c).state == Authenticated
    ensures Measure(cfg, s.(pool := s.pool.BecomesReady(c))) <= Measure(cfg, s)
  {
    BecomesReadyCounts(s.pool, c, 0);
    BecomesReadyLists(s.pool, c);
  }

  /** Closing and connecting again costs less than the handler that does it. */
  lemma ReconnectFalls(cfg: Config, s: State, c: nat, art: nat, d: Draw)
    requires PoolOk(s.pool, Some(c)) && s.pool.At(c).state == Authenticated && s.exit.None?
    ensures Measure(cfg, Resubmit(cfg, s.(pool := s.pool.Reconnect(c)), art, d, Idle)) <= Measure(cfg, s) + 11
  {
    assert RoleOk(s.pool, Some(c), c) && Rank(s.pool.At(c)) == 2;
    ReconnectKeeps(s.pool, c);
    ReconnectCounts(s.pool, c, 0);
    ResubmitFalls(cfg, s.(pool := s.pool.Reconnect(c)), art, d, Idle);
  }

  lemma PostFinishedFalls(cfg: Config, s: State, c: nat, art: nat, r: PostResult, d: Draw)
    requires PoolOk(s.pool, Some(c)) && s.pool.At(c).state == Authenticated && s.exit.None? && s.io.Idle?
    ensures Measure(cfg, OnPostFinished(cfg, s, c, art, r, d)) <= Measure(cfg, s) + 11
  {
    match r {
      case PostingNotPermitted => CloseCounts(s.pool, c, 0);
      case PostFailure => ResubmitFalls(cfg, s, art, d, BecomingReady(c));
      case PostConnectionError => ReconnectFalls(cfg, s, c, art, d);
      case PostSuccess => BecomesReadyFalls(cfg, s, c);
    }
  }

  lemma PostDoneFalls(cfg: Config, s: State, step: Step)
    requires Joint(cfg, s) && Enabled(cfg, s, step) && step.PostDone?
    ensures Measure(cfg, Next(cfg, s, step)) < Measure(cfg, s)
  {
    var c, t := step.conn, s.pool.At(step.conn).pending[step.i];
    EnterKeeps(s.pool, c, step.i);
    EnterCounts(s.pool, c, step.i, 0);
    PostFinishedFalls(cfg, s.(pool := s.pool.Enter(c, step.i)), c, t.art.value, t.post, step.draw);
  }

  lemma ConnectedFalls(cfg: Config, s: State, step: Step)
    requires Joint(cfg, s) && Enabled(cfg, s, step) && step.Connected?
    ensures Measure(cfg, Next(cfg, s, step)) < Measure(cfg, s)
  {
    var c, i := step.conn, step.i;
    EnterKeeps(s.pool, c, i);
    EnterCounts(s.pool, c, i, 0);
    if s.pool.At(c).pending[i].connect.ConnectSuccess? {
      BecomesReadyFalls(cfg, s.(pool := s.pool.Enter(c, i)), c);
    }
  }

  lemma EnqueueFalls(cfg: Config, s: State, cmd: Command)
    requires PoolOk(s.pool, HandOf(s.io)) && s.producer.blocked.None?
    ensures Measure(cfg, Enqueue(cfg, s, cmd)) <= Measure(cfg, s) + 1
  {
    DispatchCounts(s.pool, HandOf(s.io), cmd, false, 0);
  }

  lemma SubmitFalls(cfg: Config, s: State)
    requires Joint(cfg, s) && Enabled(cfg, s, Submit)
    ensures Measure(cfg, SubmitJob(cfg, s)) < Measure(cfg, s)
  {
    var s1, cmd := JobOf(cfg, s);
    EnqueueFalls(cfg, s1, cmd);
  }

  lemma WakeFalls(cfg: Config, s: State)
    requires Joint(cfg, s) && Enabled(cfg, s, Wake)
    ensures Measure(cfg, Next(cfg, s, Wake)) < Measure(cfg, s)
  {
    DispatchCounts(s.pool, HandOf(s.io), s.producer.blocked.value, false, 0);
  }

  /** Every step that is not the end of a STAT lowers the measure. */
  lemma MeasureFalls(cfg: Config, s: State, step: Step)
    requires Joint(cfg, s) && Enabled(cfg, s, step) && !step.StatDone?
    ensures Measure(cfg, Next(cfg, s, step)) < Measure(cfg, s)
  {
    match step {
      case Submit => SubmitFalls(cfg, s);
      case Wake => WakeFalls(cfg, s);
      case Stop =>
      case Progress(c, i, ev) =>
        ProgressKeeps(s.pool, c, i, ev, cfg.confs[c], s.main.arts);
        ProgressCounts(s.pool, c, ev, cfg.confs[c], s.main.arts, 0);
      case Connected(_, _) => ConnectedFalls(cfg, s, step);
      case PostDone(_, _, _) => PostDoneFalls(cfg, s, step);
      case Resume =>
        match s.io {
          case Dispatching(a) => DispatchCounts(s.pool, None, PostCmd(a), false, 0);
          case BecomingReady(c) => BecomesReadyFalls(cfg, s, c);
          case Reporting(_, _) =>
        }
      case Exit =>
    }
  }

  lemma PostOnlyInit(cfg: Config)
    ensures PostOnly(Init(cfg))
  {
    assert forall c :: 0 <= c < |cfg.confs| ==> NoStat(Init(cfg).pool.conns[c]);
  }

  lemma {:induction false} MeasureAlong(cfg: Config, run: seq<Step>)
    requires cfg.stats == [] && Legal(cfg, run)
    ensures PostOnly(After(cfg, run))
    ensures |run| + Measure(cfg, After(cfg, run)) <= Measure(cfg, Init(cfg))
    ensures After(cfg, run).producer.next <= cfg.Jobs()
    decreases |run|
  {
    if run == [] {
      PostOnlyInit(cfg);
    } else {
      var before, last := run[..|run| - 1], run[|run| - 1];
      MeasureAlong(cfg, before);
      JointAlways(cfg, before);
      OneStepLess(cfg, After(cfg, before), last);
    }
  }

  lemma OneStepLess(cfg: Config, s: State, step: Step)
    requires cfg.stats == [] && Joint(cfg, s) && PostOnly(s) && s.producer.next <= cfg.Jobs() && Enabled(cfg, s, step)
    ensures PostOnly(Next(cfg, s, step)) && Measure(cfg, Next(cfg, s, step)) < Measure(cfg, s)
    ensures Next(cfg, s, step).producer.next <= cfg.Jobs()
  {
    PostOnlyNext(cfg, s, step);
    MeasureFalls(cfg, s, step);
  }

  /** Termination: a post-only run of N pieces over C connections has at most 92N + 42C + 2 steps. */
  lemma {:induction false} RunsEnd(cfg: Config, run: seq<Step>)
    requires ValidConfig(cfg) && cfg.stats == [] && Legal(cfg, run)
    ensures |run| <= 92 * |cfg.posts| + 42 * |cfg.confs| + 2
  {
    var s := After(cfg, run);
    MeasureAlong(cfg, run);
    DispatchBound(cfg, run);
    AllArePosts(s.pool.started);
    NothingHeld(Init(cfg).pool.conns, 0);
    assert Measure(cfg, s) >= 0;
  }
}
