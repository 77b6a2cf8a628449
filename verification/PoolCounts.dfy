/** What each operation of the pool does to the things that are counted: the articles in the queue and in
    the connections, the commands in hand, and the work a connection still has in front of it. */
module PoolCounts {
  import opened Text
  import opened Message
  import opened ConnModel
  import opened ConnTheory
  import opened PoolModel
  import opened PoolTheory

  // ---- Sums over the connections ------------------------------------------------------------------

  function Sum(f: Conn -> nat, ks: seq<Conn>): nat
  {
    if ks == [] then 0 else f(ks[0]) + Sum(f, ks[1..])
  }

  lemma {:induction false} SumUpdate(f: Conn -> nat, ks: seq<Conn>, i: nat, k: Conn)
    requires i < |ks|
    ensures Sum(f, ks[i := k]) + f(ks[i]) == Sum(f, ks) + f(k)
  {
    if i == 0 {
      assert ks[i := k][1..] == ks[1..];
    } else {
      assert ks[i := k][1..] == ks[1..][i - 1 := k];
      SumUpdate(f, ks[1..], i - 1, k);
    }
  }

  // ---- Articles -----------------------------------------------------------------------------------

  function Is(cmd: Command, a: nat): nat
  {
    if cmd == PostCmd(a) then 1 else 0
  }

  /** How often article a occurs among commands. */
  function InCommands(cmds: seq<Command>, a: nat): nat
  {
    if cmds == [] then 0 else Is(cmds[0], a) + InCommands(cmds[1..], a)
  }

  function Holds(k: Conn, a: nat): nat
  {
    if Held(k) == Some(a) then 1 else 0
  }

  function Holding(a: nat): Conn -> nat
  {
    (k: Conn) => Holds(k, a)
  }

  /** How often the pool answers for article a: in the queue or in a connection. */
  function InPool(p: Pool, a: nat): nat
  {
    InCommands(p.queue, a) + Sum(Holding(a), p.conns)
  }

  lemma {:induction false} InCommandsAppend(x: seq<Command>, y: seq<Command>, a: nat)
    ensures InCommands(x + y, a) == InCommands(x, a) + InCommands(y, a)
  {
    if x == [] {
      assert x + y == y;
    } else {
      assert (x + y)[1..] == x[1..] + y;
      InCommandsAppend(x[1..], y, a);
    }
  }

  lemma InOneCommand(cmd: Command, a: nat)
    ensures InCommands([cmd], a) == Is(cmd, a)
  {
    assert [cmd][1..] == [];
  }

  predicate StatTask(t: Task)
  {
    t.RunStat? || OfStatting(t) || t.StatDone?
  }

  /** 1 for a connection that holds a command. */
  function Weight(k: Conn): nat
  {
    if Held(k).Some? || (k.pending != [] && StatTask(k.pending[0])) then 1 else 0
  }

  function Weights(p: Pool): nat
  {
    Sum(Weight, p.conns)
  }

  /** How many callbacks a task has in front of it before its connection can take a new command. */
  function TaskRank(t: Task): nat
  {
    match t
    case RunPost => 20
    case WritingPost => 19
    case AwaitPostReply => 18
    case WritingArticle => 17
    case AwaitArticleReply => 16
    case PostDone(_, _) => 15
    case RunStat => 20
    case WritingStat => 19
    case AwaitStatReply => 18
    case StatDone(_, _) => 15
    case RunConnect => 12
    case Resolving => 11
    case Dialing => 10
    case Handshaking => 9
    case AwaitWelcome => 8
    case WritingUser => 7
    case AwaitUserReply => 6
    case WritingPass => 5
    case AwaitPassReply => 4
    case ConnectDone(_) => 3
    case WritingQuit => 1
  }

  function Rank(k: Conn): nat
  {
    if k.pending != [] then TaskRank(k.pending[0]) else if k.state == Authenticated then 2 else 0
  }

  function Ranks(p: Pool): nat
  {
    Sum(Rank, p.conns)
  }

  /** All three measures follow a change of one connection. */
  lemma OneConnChanges(p: Pool, c: nat, k: Conn, a: nat)
    requires c < |p.conns|
    ensures Sum(Holding(a), p.With(c, k).conns) + Holds(p.conns[c], a) == Sum(Holding(a), p.conns) + Holds(k, a)
    ensures Weights(p.With(c, k)) + Weight(p.conns[c]) == Weights(p) + Weight(k)
    ensures Ranks(p.With(c, k)) + Rank(p.conns[c]) == Ranks(p) + Rank(k)
  {
    SumUpdate(Holding(a), p.conns, c, k);
    SumUpdate(Weight, p.conns, c, k);
    SumUpdate(Rank, p.conns, c, k);
  }

  /** How often article a was started and is no longer in a connection. */
  function Settled(p: Pool, a: nat): int
  {
    InCommands(p.started, a) - Sum(Holding(a), p.conns)
  }

  // ---- The operations -------------------------------------------------------------------------------

  lemma StartCounts(p: Pool, c: nat, cmd: Command, a: nat)
    requires c < |p.conns| && Wf(p.conns[c]) && Quiet(p.conns[c]) && p.conns[c].state == Authenticated
    ensures var q := p.Start(c, cmd);
            && Sum(Holding(a), q.conns) == Sum(Holding(a), p.conns) + Is(cmd, a)
            && Settled(q, a) == Settled(p, a)
            && Weights(q) == Weights(p) + 1
            && Ranks(q) == Ranks(p) + 18
  {
    InCommandsAppend(p.started, [cmd], a);
    InOneCommand(cmd, a);
    match cmd {
      case PostCmd(b) =>
        RequestsKeepWf(p.conns[c], b, "");
        OneConnChanges(p, c, p.conns[c].AsyncPost(b), a);
      case StatCmd(id) =>
        RequestsKeepWf(p.conns[c], 0, id);
        OneConnChanges(p, c, p.conns[c].AsyncStat(id), a);
    }
  }

  /** A command that comes in is started or queued: one command more in the pool. */
  lemma DispatchCounts(p: Pool, hand: Option<nat>, cmd: Command, front: bool, a: nat)
    requires PoolOk(p, hand)
    ensures var q := p.DispatchOrQueue(cmd, front);
            && InPool(q, a) == InPool(p, a) + Is(cmd, a)
            && Settled(q, a) == Settled(p, a)
            && |q.queue| + Weights(q) == |p.queue| + Weights(p) + 1
            && q.arrivals == p.arrivals + [cmd]
            && if p.ready != [] then
                 q.ready == p.ready[1..] && q.queue == p.queue && q.started == p.started + [cmd] && Ranks(q) == Ranks(p) + 18
               else q.ready == p.ready && q.started == p.started && q.conns == p.conns
  {
    if p.ready != [] {
      var c := p.ready[0];
      assert c in p.ready && RoleOk(p, hand, c);
      StartCounts(p.Arrive(cmd).(ready := p.ready[1..], busy := [c] + p.busy), c, cmd, a);
    } else {
      PushCounts(p, cmd, front, a);
    }
  }

  lemma PushCounts(p: Pool, cmd: Command, front: bool, a: nat)
    ensures InPool(p.Push(cmd, front), a) == InPool(p, a) + Is(cmd, a)
    ensures |p.Push(cmd, front).queue| == |p.queue| + 1 && Weights(p.Push(cmd, front)) == Weights(p)
  {
    InCommandsAppend(p.queue, [cmd], a);
    InCommandsAppend([cmd], p.queue, a);
    InOneCommand(cmd, a);
  }

  /** What a loop of hang-ups leaves alone. */
  ghost predicate OnlyHangups(p: Pool, q: Pool)
  {
    && q.ready == [] && q.busy == p.busy && q.queue == p.queue && q.work == p.work
    && q.started == p.started && q.arrivals == p.arrivals && |q.conns| == |p.conns|
  }

  lemma HangupFirstCounts(p: Pool, a: nat)
    requires PoolOk(p, None) && p.ready != []
    ensures var q := p.Hangup(p.ready[0]);
            Sum(Holding(a), q.conns) == Sum(Holding(a), p.conns) && Weights(q) == Weights(p) && Ranks(q) <= Ranks(p)
  {
    var c := p.ready[0];
    assert c in p.ready && RoleOk(p, None, c);
    RequestsKeepWf(p.conns[c], 0, "");
    OneConnChanges(p, c, p.conns[c].AsyncGracefulDisconnect(), a);
  }

  lemma {:induction false} HangupCounts(p: Pool, a: nat)
    requires PoolOk(p, None)
    ensures var q := p.HangupReady();
            && OnlyHangups(p, q)
            && Sum(Holding(a), q.conns) == Sum(Holding(a), p.conns) && Weights(q) == Weights(p) && Ranks(q) <= Ranks(p)
    decreases |p.ready|
  {
    if p.ready != [] {
      HangupFirstCounts(p, a);
      HangupFirstKeeps(p);
      HangupCounts(p.Hangup(p.ready[0]).(ready := p.ready[1..]), a);
    }
  }

  lemma ShutdownCounts(p: Pool, c: nat, a: nat)
    requires PoolOk(p, Some(c)) && p.At(c).state == Authenticated
    ensures var p1 := p.(busy := Without(p.busy, c)).Hangup(c);
            && PoolOk(p1, None)
            && Sum(Holding(a), p1.conns) == Sum(Holding(a), p.conns) && Weights(p1) == Weights(p) && Ranks(p1) <= Ranks(p)
  {
    assert RoleOk(p, Some(c), c);
    RequestsKeepWf(p.conns[c], 0, "");
    OneConnChanges(p.(busy := Without(p.busy, c)), c, p.conns[c].AsyncGracefulDisconnect(), a);
    HandRetires(p, c, p.conns[c].AsyncGracefulDisconnect());
  }

  /** A connection that becomes ready takes the first queued command, or joins the ready list, or hangs up
      with all the others. */
  lemma BecomesReadyCounts(p: Pool, c: nat, a: nat)
    requires PoolOk(p, Some(c)) && p.At(c).state == Authenticated
    ensures var q := p.BecomesReady(c);
            && InPool(q, a) == InPool(p, a)
            && Settled(q, a) == Settled(p, a)
            && |q.queue| + Weights(q) == |p.queue| + Weights(p)
            && Ranks(q) <= Ranks(p) + (if p.queue != [] then 18 else 0)
  {
    assert RoleOk(p, Some(c), c);
    if p.queue != [] {
      StartCounts(p.(queue := p.queue[1..]), c, p.queue[0], a);
    } else if !p.work {
      ShutdownCounts(p, c, a);
      HangupCounts(p.(busy := Without(p.busy, c)).Hangup(c), a);
    }
  }

  lemma BecomesReadyLists(p: Pool, c: nat)
    requires PoolOk(p, Some(c)) && p.At(c).state == Authenticated
    ensures var q := p.BecomesReady(c);
            && q.arrivals == p.arrivals && q.work == p.work && |q.conns| == |p.conns|
            && if p.queue != [] then
                 && q.ready == p.ready && q.busy == p.busy && q.queue == p.queue[1..]
                 && q.started == p.started + [p.queue[0]]
               else
                 && q.queue == [] && q.started == p.started
                 && q.busy == Without(p.busy, c)
                 && q.ready == (if p.work then p.ready + [c] else [])
  {
    assert RoleOk(p, Some(c), c);
    if p.queue == [] && !p.work {
      ShutdownCounts(p, c, 0);
      HangupCounts(p.(busy := Without(p.busy, c)).Hangup(c), 0);
    }
  }

  lemma ReconnectCounts(p: Pool, c: nat, a: nat)
    requires PoolOk(p, Some(c))
    ensures var q := p.Reconnect(c);
            && InPool(q, a) == InPool(p, a) && Settled(q, a) == Settled(p, a) && Weights(q) == Weights(p)
            && Ranks(q) + Rank(p.At(c)) == Ranks(p) + 12
  {
    assert RoleOk(p, Some(c), c);
    OneConnChanges(p, c, p.conns[c].Close().AsyncConnect(), a);
  }

  lemma CloseCounts(p: Pool, c: nat, a: nat)
    requires PoolOk(p, Some(c))
    ensures var q := p.With(c, p.At(c).Close());
            && InPool(q, a) == InPool(p, a) && Settled(q, a) == Settled(p, a)
            && Weights(q) == Weights(p) && Ranks(q) <= Ranks(p)
  {
    assert RoleOk(p, Some(c), c);
    OneConnChanges(p, c, p.conns[c].Close(), a);
  }

  /** Entering a handler: its article leaves the connection. */
  lemma EnterCounts(p: Pool, c: nat, i: nat, a: nat)
    requires PoolOk(p, None) && i < |p.At(c).pending| && p.At(c).Calls(p.At(c).pending[i])
    ensures var q, t := p.Enter(c, i), p.At(c).pending[i];
            && InPool(p, a) == InPool(q, a) + (if t.PostDone? && t.art == Some(a) then 1 else 0)
            && Settled(q, a) == Settled(p, a) + (if t.PostDone? && t.art == Some(a) then 1 else 0)
            && Weights(p) == Weights(q) + (if t.ConnectDone? then 0 else 1)
            && Ranks(q) + TaskRank(t) == Ranks(p) + (if q.At(c).state == Authenticated then 2 else 0)
  {
    EnterKeeps(p, c, i);
    OneConnChanges(p, c, p.conns[c].Deliver(i), a);
    assert RoleOk(p.Enter(c, i), Some(c), c);
  }

  // ---- Progress inside a connection -----------------------------------------------------------------

  predicate Lowers(t: Task, k': Conn)
  {
    |k'.pending| == 1 && TaskRank(k'.pending[0]) < TaskRank(t) && (StatTask(k'.pending[0]) <==> StatTask(t))
  }

  lemma RunLowers(k: Conn, t: Task)
    requires k.pending == [] && k.Runs(t)
    ensures Lowers(t, k.Run(t))
  {
  }

  lemma FailsLowers(k: Conn, t: Task)
    requires k.pending == [] && !k.Runs(t) && !k.Calls(t) && !t.WritingQuit?
    ensures Lowers(t, k.Fails(t))
  {
  }

  lemma SucceedsLowers(k: Conn, t: Task, conf: Conf)
    requires k.pending == [] && !k.Runs(t) && !k.Calls(t) && !k.Awaits(t) && !t.WritingQuit?
    ensures Lowers(t, k.Succeeds(t, conf))
  {
  }

  lemma HearsConnectLowers(k: Conn, t: Task, line: string, conf: Conf, store: seq<Article>)
    requires k.pending == [] && k.Awaits(t) && OfConnecting(t)
    ensures Lowers(t, k.Hears(t, line, conf, store))
  {
  }

  lemma HearsCommandLowers(k: Conn, t: Task, line: string, conf: Conf, store: seq<Article>)
    requires k.pending == [] && k.Awaits(t) && !OfConnecting(t)
    ensures Lowers(t, k.Hears(t, line, conf, store))
  {
  }

  lemma HearsLowers(k: Conn, t: Task, line: string, conf: Conf, store: seq<Article>)
    requires k.pending == [] && k.Awaits(t)
    ensures Lowers(t, k.Hears(t, line, conf, store))
  {
    if OfConnecting(t) {
      HearsConnectLowers(k, t, line, conf, store);
    } else {
      HearsCommandLowers(k, t, line, conf, store);
    }
  }

  lemma CompleteLowers(k: Conn, ev: Event, conf: Conf, store: seq<Article>)
    requires Wf(k) && k.CanComplete(0, ev)
    ensures var k' := k.Complete(0, ev, conf, store);
            && Rank(k') < Rank(k) && Weight(k') == Weight(k) && Held(k') == Held(k)
            && |k'.pending| <= 1 && (k'.pending != [] ==> (StatTask(k'.pending[0]) <==> StatTask(k.pending[0])))
  {
    var t, d := k.pending[0], k.Done(0);
    assert d.pending == [];
    CompleteKeepsWf(k, ev, conf, store);
    if k.Runs(t) {
      RunLowers(d, t);
    } else if t.WritingQuit? {
    } else if ev.Ok? {
      SucceedsLowers(d.Note(Went), t, conf);
    } else if ev.Err? {
      FailsLowers(d.Receive(ev.arrived).Note(Failed), t);
    } else {
      var b, e := AfterRead(k, ev);
      HearsLowers(d.(readbuf := b[e..]).Note(Reply(b[..e])), t, TextOf(b[..e]), conf, store);
    }
  }

  lemma ProgressCounts(p: Pool, c: nat, ev: Event, conf: Conf, store: seq<Article>, a: nat)
    requires PoolOk(p, None) && c < |p.conns| && p.conns[c].CanComplete(0, ev)
    ensures var q := p.With(c, p.conns[c].Complete(0, ev, conf, store));
            && InPool(q, a) == InPool(p, a) && Settled(q, a) == Settled(p, a)
            && Weights(q) == Weights(p) && Ranks(q) < Ranks(p)
  {
    assert RoleOk(p, None, c);
    CompleteLowers(p.conns[c], ev, conf, store);
    OneConnChanges(p, c, p.conns[c].Complete(0, ev, conf, store), a);
  }

  // ---- How many commands can be in hand ---------------------------------------------------------------

  /** Every connection that holds a command is busy, so there are at most as many as busy connections. */
  lemma {:induction false} WeightsAtMost(ks: seq<Conn>, busy: seq<nat>, from: nat)
    requires forall c :: 0 <= c < |ks| && Weight(ks[c]) > 0 ==> from + c in busy
    ensures Sum(Weight, ks) <= |busy|
    decreases |ks|
  {
    if ks != [] {
      var rest := if Weight(ks[0]) > 0 then Without(busy, from) else busy;
      WithoutIs(busy, from);
      forall c | 0 <= c < |ks[1..]| && Weight(ks[1..][c]) > 0
        ensures from + 1 + c in rest
      {
        assert ks[1..][c] == ks[c + 1];
      }
      WeightsAtMost(ks[1..], rest, from + 1);
    }
  }

  lemma InHandAtMostBusy(p: Pool, hand: Option<nat>)
    requires PoolOk(p, hand)
    ensures Weights(p) <= |p.busy|
  {
    forall c | 0 <= c < |p.conns| && Weight(p.conns[c]) > 0
      ensures 0 + c in p.busy
    {
      assert RoleOk(p, hand, c);
    }
    WeightsAtMost(p.conns, p.busy, 0);
  }
}
