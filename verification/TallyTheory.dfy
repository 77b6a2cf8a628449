/** Where every article is, how often it was started, and how much is in hand: invariants of every run. */
module TallyTheory {
  import opened Text
  import opened ConnModel
  import opened PoolModel
  import opened PoolTheory
  import opened PoolCounts
  import opened RunTheory

  // ---- Conservation -----------------------------------------------------------------------------------

  function InPosted(posted: seq<Posted>, a: nat): nat
  {
    if posted == [] then 0 else (if posted[0].art == a then 1 else 0) + InPosted(posted[1..], a)
  }

  function InList(s: seq<nat>, a: nat): nat
  {
    if s == [] then 0 else (if s[0] == a then 1 else 0) + InList(s[1..], a)
  }

  function InHandler(h: Handler, a: nat): nat
  {
    if (h.Dispatching? || h.Reporting? || h.Dying?) && h.art == a then 1 else 0
  }

  function InProducer(p: Producer, a: nat): nat
  {
    if p.blocked.Some? then Is(p.blocked.value, a) else 0
  }

  /** The number of places article a is in: the blocked producer, the queue, the connections, the handler
      under way, the list of posted articles. */
  function Places(s: State, a: nat): nat
  {
    InProducer(s.producer, a) + InPool(s.pool, a) + InHandler(s.io, a) + InPosted(s.main.posted, a)
  }

  /** An article that was built is in exactly one place; nothing else is anywhere. */
  ghost predicate Conserved(s: State, a: nat)
  {
    Places(s, a) == if a < |s.main.arts| then 1 else 0
  }

  /** Every start of an article that is over ended in a failure, a refusal, or a success. */
  ghost predicate Accounted(s: State, a: nat)
  {
    s.exit != Some(EXIT_CRASH) ==>
      Settled(s.pool, a)
      == InList(s.main.failed, a) + InList(s.main.refused, a) + (if s.io.Reporting? then InHandler(s.io, a) else 0)
       + InPosted(s.main.posted, a)
  }

  ghost predicate Tally(s: State, a: nat)
  {
    && Conserved(s, a) && Accounted(s, a)
    && (a >= |s.main.arts| ==> InList(s.main.failed, a) == 0 && InList(s.main.refused, a) == 0)
  }

  lemma {:induction false} InListAppend(s: seq<nat>, x: nat, a: nat)
    ensures InList(s + [x], a) == InList(s, a) + if x == a then 1 else 0
  {
    if s == [] {
      assert s + [x] == [x];
    } else {
      assert (s + [x])[1..] == s[1..] + [x];
      InListAppend(s[1..], x, a);
    }
  }

  lemma {:induction false} InPostedAppend(s: seq<Posted>, x: Posted, a: nat)
    ensures InPosted(s + [x], a) == InPosted(s, a) + if x.art == a then 1 else 0
  {
    if s == [] {
      assert s + [x] == [x];
    } else {
      assert (s + [x])[1..] == s[1..] + [x];
      InPostedAppend(s[1..], x, a);
    }
  }

  lemma {:induction false} NothingHeld(ks: seq<Conn>, a: nat)
    requires forall c :: 0 <= c < |ks| ==> ks[c] == FRESH.AsyncConnect()
    ensures Sum(Holding(a), ks) == 0 && Sum(Weight, ks) == 0 && Sum(Rank, ks) == 12 * |ks|
  {
    if ks != [] {
      NothingHeld(ks[1..], a);
    }
  }

  lemma TallyInit(cfg: Config, a: nat)
    ensures Tally(Init(cfg), a)
  {
    NothingHeld(Init(cfg).pool.conns, a);
  }

  lemma EnqueueTally(cfg: Config, s: State, cmd: Command, a: nat)
    requires PoolOk(s.pool, HandOf(s.io)) && s.producer.blocked.None?
    requires Places(s, a) + Is(cmd, a) == if a < |s.main.arts| then 1 else 0
    requires Accounted(s, a)
    requires a >= |s.main.arts| ==> InList(s.main.failed, a) == 0 && InList(s.main.refused, a) == 0
    ensures Tally(Enqueue(cfg, s, cmd), a)
  {
    DispatchCounts(s.pool, HandOf(s.io), cmd, false, a);
  }

  /** The next job: a new article is built, which is still nowhere else, or nothing is. */
  lemma JobTally(s: State, s1: State, cmd: Command, a: nat)
    requires Tally(s, a) && s.producer.blocked.None? && s1.producer.blocked.None?
    requires s1.pool == s.pool && s1.io == s.io && s1.exit == s.exit && s1.main == s.main.(arts := s1.main.arts)
    requires if cmd.PostCmd? then cmd.art == |s.main.arts| && |s1.main.arts| == cmd.art + 1 else s1.main.arts == s.main.arts
    ensures Places(s1, a) + Is(cmd, a) == (if a < |s1.main.arts| then 1 else 0) && Accounted(s1, a)
    ensures a >= |s1.main.arts| ==> InList(s1.main.failed, a) == 0 && InList(s1.main.refused, a) == 0
  {
  }

  lemma SubmitTally(cfg: Config, s: State, a: nat)
    requires Joint(cfg, s) && Tally(s, a) && Enabled(cfg, s, Submit)
    ensures Tally(SubmitJob(cfg, s), a)
  {
    var s1, cmd := JobOf(cfg, s);
    JobTally(s, s1, cmd, a);
    EnqueueTally(cfg, s1, cmd, a);
  }

  lemma WakeTally(cfg: Config, s: State, a: nat)
    requires Joint(cfg, s) && Tally(s, a) && Enabled(cfg, s, Wake)
    ensures Tally(Next(cfg, s, Wake), a)
  {
    DispatchCounts(s.pool, HandOf(s.io), s.producer.blocked.value, false, a);
    PushCounts(s.pool, s.producer.blocked.value, false, a);
  }

  lemma RequeueTally(cfg: Config, s: State, art: nat, d: Draw, after: Handler, a: nat)
    requires PoolOk(s.pool, HandOf(after)) && (after.Idle? || after.BecomingReady?)
    requires s.exit.None? && s.io.Idle? && Judge(s.main, art) == Requeue
    requires Places(s, a) + (if art == a then 1 else 0) == if a < |s.main.arts| then 1 else 0
    requires Settled(s.pool, a)
          == InList(s.main.failed, a) + InList(s.main.refused, a) + InPosted(s.main.posted, a) + (if art == a then 1 else 0)
    requires a >= |s.main.arts| ==> InList(s.main.failed, a) == 0 && InList(s.main.refused, a) == 0
    ensures Tally(Resubmit(cfg, s, art, d, after), a)
  {
    var s' := Resubmit(cfg, s, art, d, after);
    InListAppend(s.main.failed, art, a);
    DispatchCounts(s.pool, HandOf(after), PostCmd(art), false, a);
    assert |s'.main.arts| == |s.main.arts| && s'.main.posted == s.main.posted && s'.main.refused == s.main.refused;
    assert s'.main.failed == s.main.failed + [art];
  }

  lemma ResubmitTally(cfg: Config, s: State, art: nat, d: Draw, after: Handler, a: nat)
    requires PoolOk(s.pool, HandOf(after)) && (after.Idle? || after.BecomingReady?)
    requires s.exit.None? && s.io.Idle?
    requires Places(s, a) + (if art == a then 1 else 0) == if a < |s.main.arts| then 1 else 0
    requires Settled(s.pool, a)
          == InList(s.main.failed, a) + InList(s.main.refused, a) + InPosted(s.main.posted, a) + (if art == a then 1 else 0)
    requires a >= |s.main.arts| ==> InList(s.main.failed, a) == 0 && InList(s.main.refused, a) == 0
    ensures Tally(Resubmit(cfg, s, art, d, after), a)
  {
    var s' := Resubmit(cfg, s, art, d, after);
    match Judge(s.main, art) {
      case Crash =>
      case Abort =>
        InListAppend(s.main.failed, art, a);
        assert s'.pool == s.pool && s'.main.posted == s.main.posted;
      case Requeue => RequeueTally(cfg, s, art, d, after, a);
    }
  }

  lemma PostFinishedTally(cfg: Config, s: State, c: nat, art: nat, r: PostResult, d: Draw, a: nat)
    requires PoolOk(s.pool, Some(c)) && s.pool.At(c).state == Authenticated
    requires s.exit.None? && s.io.Idle?
    requires Places(s, a) + (if art == a then 1 else 0) == if a < |s.main.arts| then 1 else 0
    requires Settled(s.pool, a)
          == InList(s.main.failed, a) + InList(s.main.refused, a) + InPosted(s.main.posted, a) + (if art == a then 1 else 0)
    requires a >= |s.main.arts| ==> InList(s.main.failed, a) == 0 && InList(s.main.refused, a) == 0
    ensures Tally(OnPostFinished(cfg, s, c, art, r, d), a)
  {
    match r {
      case PostingNotPermitted =>
        CloseCounts(s.pool, c, a);
        InListAppend(s.main.refused, art, a);
      case PostFailure => ResubmitTally(cfg, s, art, d, BecomingReady(c), a);
      case PostConnectionError =>
        ReconnectKeeps(s.pool, c);
        ReconnectCounts(s.pool, c, a);
        ResubmitTally(cfg, s.(pool := s.pool.Reconnect(c)), art, d, Idle, a);
      case PostSuccess => BecomesReadyCounts(s.pool, c, a);
    }
  }

  lemma PostDoneTally(cfg: Config, s: State, step: Step, a: nat)
    requires Joint(cfg, s) && Tally(s, a) && Enabled(cfg, s, step) && step.PostDone?
    ensures Tally(Next(cfg, s, step), a)
  {
    var c, t := step.conn, s.pool.At(step.conn).pending[step.i];
    EnterKeeps(s.pool, c, step.i);
    EnterCounts(s.pool, c, step.i, a);
    PostFinishedTally(cfg, s.(pool := s.pool.Enter(c, step.i)), c, t.art.value, t.post, step.draw, a);
  }

  lemma ConnectedTally(cfg: Config, s: State, step: Step, a: nat)
    requires Joint(cfg, s) && Tally(s, a) && Enabled(cfg, s, step) && step.Connected?
    ensures Tally(Next(cfg, s, step), a)
  {
    EnterKeeps(s.pool, step.conn, step.i);
    EnterCounts(s.pool, step.conn, step.i, a);
    if s.pool.At(step.conn).pending[step.i].connect.ConnectSuccess? {
      BecomesReadyCounts(s.pool.Enter(step.conn, step.i), step.conn, a);
    }
  }

  lemma StatFailedTally(p: Pool, c: nat, id: string, recheck: bool, a: nat)
    requires PoolOk(p, Some(c)) && p.At(c).state == Authenticated
    ensures InPool(p.StatFailed(c, id, recheck), a) == InPool(p, a)
    ensures Settled(p.StatFailed(c, id, recheck), a) == Settled(p, a)
  {
    var cmd := StatCmd(id);
    DispatchOrQueueKeeps(p, Some(c), cmd, false);
    DispatchCounts(p, Some(c), cmd, false, a);
    PushCounts(p, cmd, false, a);
    SameRoles(p, p.Push(cmd, false), Some(c));
    ReconnectCounts(if recheck then p.DispatchOrQueue(cmd, false) else p.Push(cmd, false), c, a);
  }

  lemma StatDoneTally(cfg: Config, s: State, step: Step, a: nat)
    requires Joint(cfg, s) && Tally(s, a) && Enabled(cfg, s, step) && step.StatDone?
    ensures Tally(Next(cfg, s, step), a)
  {
    var c, t := step.conn, s.pool.At(step.conn).pending[step.i];
    EnterKeeps(s.pool, c, step.i);
    EnterCounts(s.pool, c, step.i, a);
    var p := s.pool.Enter(c, step.i);
    if t.stat.StatConnectionError? {
      StatFailedTally(p, c, t.id, cfg.recheck, a);
    } else {
      BecomesReadyCounts(p, c, a);
    }
  }

  lemma ProgressTally(cfg: Config, s: State, step: Step, a: nat)
    requires Joint(cfg, s) && Tally(s, a) && Enabled(cfg, s, step) && step.Progress?
    ensures Tally(Next(cfg, s, step), a)
  {
    var c := step.conn;
    ProgressKeeps(s.pool, c, step.i, step.ev, cfg.confs[c], s.main.arts);
    ProgressCounts(s.pool, c, step.ev, cfg.confs[c], s.main.arts, a);
  }

  lemma ResumeTally(cfg: Config, s: State, a: nat)
    requires Joint(cfg, s) && Tally(s, a) && Enabled(cfg, s, Resume)
    ensures Tally(Next(cfg, s, Resume), a)
  {
    match s.io {
      case Dispatching(b) => DispatchCounts(s.pool, None, PostCmd(b), false, a);
      case BecomingReady(c) => BecomesReadyCounts(s.pool, c, a);
      case Reporting(b, w) => InPostedAppend(s.main.posted, Posted(b, w), a);
    }
  }

  lemma TallyNext(cfg: Config, s: State, step: Step, a: nat)
    requires Joint(cfg, s) && Tally(s, a) && Enabled(cfg, s, step)
    ensures Tally(Next(cfg, s, step), a)
  {
    match step {
      case Submit => SubmitTally(cfg, s, a);
      case Wake => WakeTally(cfg, s, a);
      case Stop =>
      case Progress(_, _, _) => ProgressTally(cfg, s, step, a);
      case Connected(_, _) => ConnectedTally(cfg, s, step, a);
      case PostDone(_, _, _) => PostDoneTally(cfg, s, step, a);
      case StatDone(_, _) => StatDoneTally(cfg, s, step, a);
      case Resume => ResumeTally(cfg, s, a);
      case Exit =>
    }
  }

  lemma {:induction false} TallyAlways(cfg: Config, run: seq<Step>, a: nat)
    requires Legal(cfg, run)
    ensures Tally(After(cfg, run), a)
    decreases |run|
  {
    if run == [] {
      TallyInit(cfg, a);
    } else {
      var before := run[..|run| - 1];
      TallyAlways(cfg, before, a);
      JointAlways(cfg, before);
      TallyNext(cfg, After(cfg, before), run[|run| - 1], a);
    }
  }

  lemma AllTallied(cfg: Config, run: seq<Step>)
    requires Legal(cfg, run)
    ensures forall a :: Tally(After(cfg, run), a)
  {
    forall a
      ensures Tally(After(cfg, run), a)
    {
      TallyAlways(cfg, run, a);
    }
  }

  // ---- How much is in hand ----------------------------------------------------------------------------

  function Pending(h: Handler): nat
  {
    if h.Dispatching? then 1 else 0
  }

  /** Commands queued, in connections or in the hand of a handler, and ready connections. */
  function Load(s: State): nat
  {
    |s.pool.queue| + Weights(s.pool) + Pending(s.io) + |s.pool.ready|
  }

  /** Every refusal has cost a connection; with a bounded queue the load is bounded. */
  ghost predicate Bounded(cfg: Config, s: State)
  {
    && |s.pool.ready| + |s.pool.busy| + |s.main.refused| <= |cfg.confs|
    && (s.io.Dispatching? ==> s.main.refused != [])
    && s.main.numPosted == |s.main.posted|
    && (cfg.maxsize > 0 ==> Load(s) <= cfg.maxsize + |cfg.confs|)
  }

  lemma InHandAtMostConnections(cfg: Config, s: State, hand: Option<nat>)
    requires PoolOk(s.pool, hand)
    requires |s.pool.ready| + |s.pool.busy| + |s.main.refused| <= |cfg.confs|
    requires s.io.Dispatching? ==> s.main.refused != []
    ensures Weights(s.pool) + Pending(s.io) + |s.pool.ready| <= |cfg.confs|
  {
    InHandAtMostBusy(s.pool, hand);
  }

  lemma BoundedInit(cfg: Config)
    ensures Bounded(cfg, Init(cfg))
  {
    NothingHeld(Init(cfg).pool.conns, 0);
  }

  lemma DispatchLists(p: Pool, cmd: Command)
    ensures |p.DispatchOrQueue(cmd, false).ready| + |p.DispatchOrQueue(cmd, false).busy| == |p.ready| + |p.busy|
  {
  }

  lemma EnqueueBounded(cfg: Config, s: State, cmd: Command)
    requires PoolOk(s.pool, HandOf(s.io)) && Bounded(cfg, s)
    ensures Bounded(cfg, Enqueue(cfg, s, cmd))
  {
    InHandAtMostConnections(cfg, s, HandOf(s.io));
    DispatchCounts(s.pool, HandOf(s.io), cmd, false, 0);
    DispatchLists(s.pool, cmd);
  }

  lemma SubmitBounded(cfg: Config, s: State)
    requires Joint(cfg, s) && Bounded(cfg, s) && Enabled(cfg, s, Submit)
    ensures Bounded(cfg, SubmitJob(cfg, s))
  {
    var s1, cmd := JobOf(cfg, s);
    SameLoad(cfg, s, s1);
    EnqueueBounded(cfg, s1, cmd);
  }

  lemma SameLoad(cfg: Config, s: State, s': State)
    requires Bounded(cfg, s) && s'.pool == s.pool && s'.io == s.io && s'.main == s.main.(arts := s'.main.arts)
    ensures Bounded(cfg, s')
  {
  }

  lemma WakeBounded(cfg: Config, s: State)
    requires Joint(cfg, s) && Bounded(cfg, s) && Enabled(cfg, s, Wake)
    ensures Bounded(cfg, Next(cfg, s, Wake))
  {
    var cmd := s.producer.blocked.value;
    InHandAtMostConnections(cfg, s, HandOf(s.io));
    DispatchCounts(s.pool, HandOf(s.io), cmd, false, 0);
    DispatchLists(s.pool, cmd);
    PushCounts(s.pool, cmd, false, 0);
  }

  /** Becoming ready: the load stays, or the queue is empty afterwards. */
  lemma BecomesReadyBounded(cfg: Config, s: State, c: nat)
    requires PoolOk(s.pool, Some(c)) && s.pool.At(c).state == Authenticated
    requires |s.pool.ready| + |s.pool.busy| + |s.main.refused| <= |cfg.confs|
    requires s.io.Dispatching? ==> s.main.refused != []
    ensures var q := s.pool.BecomesReady(c);
            && |q.ready| + |q.busy| + |s.main.refused| <= |cfg.confs|
            && (Load(s.(pool := q)) <= Load(s) || Load(s.(pool := q)) <= |cfg.confs|)
  {
    BecomesReadyCounts(s.pool, c, 0);
    BecomesReadyLists(s.pool, c);
    BecomesReadyKeeps(s.pool, c);
    WithoutIs(s.pool.busy, c);
    InHandAtMostConnections(cfg, s.(pool := s.pool.BecomesReady(c)), None);
  }

  lemma ResubmitBounded(cfg: Config, s: State, art: nat, d: Draw, after: Handler)
    requires PoolOk(s.pool, HandOf(after)) && (after.Idle? || after.BecomingReady?) && s.io.Idle?
    requires |s.pool.ready| + |s.pool.busy| + |s.main.refused| <= |cfg.confs|
    requires s.main.numPosted == |s.main.posted|
    requires cfg.maxsize > 0 ==> Load(s) + 1 <= cfg.maxsize + |cfg.confs|
    ensures Bounded(cfg, Resubmit(cfg, s, art, d, after))
  {
    DispatchCounts(s.pool, HandOf(after), PostCmd(art), false, 0);
    DispatchLists(s.pool, PostCmd(art));
  }

  lemma PostFinishedBounded(cfg: Config, s: State, c: nat, art: nat, r: PostResult, d: Draw)
    requires PoolOk(s.pool, Some(c)) && s.pool.At(c).state == Authenticated && s.io.Idle?
    requires |s.pool.ready| + |s.pool.busy| + |s.main.refused| <= |cfg.confs|
    requires s.main.numPosted == |s.main.posted|
    requires cfg.maxsize > 0 ==> Load(s) + 1 <= cfg.maxsize + |cfg.confs|
    ensures Bounded(cfg, OnPostFinished(cfg, s, c, art, r, d))
  {
    match r {
      case PostingNotPermitted =>
        CloseCounts(s.pool, c, 0);
        WithoutIs(s.pool.busy, c);
      case PostFailure => ResubmitBounded(cfg, s, art, d, BecomingReady(c));
      case PostConnectionError =>
        ReconnectKeeps(s.pool, c);
        ReconnectCounts(s.pool, c, 0);
        ResubmitBounded(cfg, s.(pool := s.pool.Reconnect(c)), art, d, Idle);
      case PostSuccess => BecomesReadyBounded(cfg, s, c);
    }
  }

  lemma PostDoneBounded(cfg: Config, s: State, step: Step)
    requires Joint(cfg, s) && Bounded(cfg, s) && Enabled(cfg, s, step) && step.PostDone?
    ensures Bounded(cfg, Next(cfg, s, step))
  {
    var c, t := step.conn, s.pool.At(step.conn).pending[step.i];
    EnterKeeps(s.pool, c, step.i);
    EnterCounts(s.pool, c, step.i, 0);
    PostFinishedBounded(cfg, s.(pool := s.pool.Enter(c, step.i)), c, t.art.value, t.post, step.draw);
  }

  lemma ConnectedBounded(cfg: Config, s: State, step: Step)
    requires Joint(cfg, s) && Bounded(cfg, s) && Enabled(cfg, s, step) && step.Connected?
    ensures Bounded(cfg, Next(cfg, s, step))
  {
    var c, t := step.conn, s.pool.At(step.conn).pending[step.i];
    EnterKeeps(s.pool, c, step.i);
    EnterCounts(s.pool, c, step.i, 0);
    if t.connect.ConnectSuccess? {
      BecomesReadyBounded(cfg, s.(pool := s.pool.Enter(c, step.i)), c);
    } else {
      WithoutIs(s.pool.busy, c);
    }
  }

  lemma StatDoneBounded(cfg: Config, s: State, step: Step)
    requires Joint(cfg, s) && Bounded(cfg, s) && Enabled(cfg, s, step) && step.StatDone?
    ensures Bounded(cfg, Next(cfg, s, step))
  {
    var c, t := step.conn, s.pool.At(step.conn).pending[step.i];
    EnterKeeps(s.pool, c, step.i);
    EnterCounts(s.pool, c, step.i, 0);
    var p := s.pool.Enter(c, step.i);
    if t.stat.StatConnectionError? {
      var cmd := StatCmd(t.id);
      DispatchOrQueueKeeps(p, Some(c), cmd, false);
      DispatchCounts(p, Some(c), cmd, false, 0);
      DispatchLists(p, cmd);
      PushCounts(p, cmd, false, 0);
      SameRoles(p, p.Push(cmd, false), Some(c));
      ReconnectCounts(if cfg.recheck then p.DispatchOrQueue(cmd, false) else p.Push(cmd, false), c, 0);
    } else {
      BecomesReadyBounded(cfg, s.(pool := p), c);
    }
  }

  lemma BoundedNext(cfg: Config, s: State, step: Step)
    requires Joint(cfg, s) && Bounded(cfg, s) && Enabled(cfg, s, step)
    ensures Bounded(cfg, Next(cfg, s, step))
  {
    match step {
      case Submit => SubmitBounded(cfg, s);
      case Wake => WakeBounded(cfg, s);
      case Stop =>
      case Progress(c, i, ev) =>
        ProgressKeeps(s.pool, c, i, ev, cfg.confs[c], s.main.arts);
        ProgressCounts(s.pool, c, ev, cfg.confs[c], s.main.arts, 0);
      case Connected(_, _) => ConnectedBounded(cfg, s, step);
      case PostDone(_, _, _) => PostDoneBounded(cfg, s, step);
      case StatDone(_, _) => StatDoneBounded(cfg, s, step);
      case Resume =>
        match s.io {
          case Dispatching(b) =>
            DispatchCounts(s.pool, None, PostCmd(b), false, 0);
            DispatchLists(s.pool, PostCmd(b));
          case BecomingReady(c) => BecomesReadyBounded(cfg, s.(io := Idle), c);
          case Reporting(_, _) =>
        }
      case Exit =>
    }
  }

  /** In every reachable state: queued + in hand + ready <= m_maxsize + C, and so the queue itself. */
  lemma {:induction false} QueueBound(cfg: Config, run: seq<Step>)
    requires Legal(cfg, run)
    ensures Bounded(cfg, After(cfg, run))
    ensures cfg.maxsize > 0 ==> |After(cfg, run).pool.queue| <= cfg.maxsize + |cfg.confs|
    decreases |run|
  {
    if run == [] {
      BoundedInit(cfg);
    } else {
      var before := run[..|run| - 1];
      QueueBound(cfg, before);
      JointAlways(cfg, before);
      BoundedNext(cfg, After(cfg, before), run[|run| - 1]);
    }
  }
}
