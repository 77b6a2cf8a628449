/** Invariants of every run: the joint invariant of pool and connections, and the conservation of articles. */
module RunTheory {
  import opened Text
  import opened ConnModel
  import opened PoolModel
  import opened PoolTheory
  import opened PoolCounts

  // ---- The joint invariant ------------------------------------------------------------------------

  ghost predicate Joint(cfg: Config, s: State)
  {
    var hand := HandOf(s.io);
    && PoolOk(s.pool, hand)
    && |s.pool.conns| == |cfg.confs|
    && (s.io.BecomingReady? ==> s.pool.At(s.io.conn).state == Authenticated)
  }

  lemma {:induction false} IotaNoDup(n: nat, k: nat)
    requires k <= n
    ensures NoDup(Iota(n)[k..])
    decreases n - k
  {
    if k < n {
      IotaNoDup(n, k + 1);
      assert Iota(n)[k..][1..] == Iota(n)[k + 1..];
    }
  }

  lemma JointInit(cfg: Config)
    ensures Joint(cfg, Init(cfg))
  {
    var s := Init(cfg);
    IotaNoDup(|cfg.confs|, 0);
    assert s.pool.busy[0..] == s.pool.busy;
    forall c | 0 <= c < |s.pool.conns|
      ensures RoleOk(s.pool, None, c)
    {
      assert s.pool.busy[c] == c;
    }
  }

  lemma EnqueueJoint(cfg: Config, s: State, cmd: Command)
    requires Joint(cfg, s)
    ensures Joint(cfg, Enqueue(cfg, s, cmd))
  {
    DispatchOrQueueKeeps(s.pool, HandOf(s.io), cmd, false);
  }

  lemma WakeJoint(cfg: Config, s: State, cmd: Command)
    requires Joint(cfg, s)
    ensures Joint(cfg, WakeUp(cfg, s, cmd))
  {
    DispatchOrQueueKeeps(s.pool, HandOf(s.io), cmd, false);
    SameRoles(s.pool, s.pool.Push(cmd, false), HandOf(s.io));
  }

  /** The connection in hand of a handler keeps its state while other commands are dispatched. */
  lemma DispatchKeepsHand(p: Pool, c: nat, cmd: Command)
    requires PoolOk(p, Some(c))
    ensures p.DispatchOrQueue(cmd, false).At(c) == p.At(c)
    ensures |p.DispatchOrQueue(cmd, false).conns| == |p.conns|
  {
    if p.ready != [] {
      assert p.ready[0] in p.ready && RoleOk(p, Some(c), p.ready[0]);
    }
  }

  lemma ResubmitJoint(cfg: Config, s: State, art: nat, d: Draw, after: Handler)
    requires PoolOk(s.pool, HandOf(after)) && |s.pool.conns| == |cfg.confs|
    requires after.Idle? || (after.BecomingReady? && s.pool.At(after.conn).state == Authenticated)
    ensures Joint(cfg, Resubmit(cfg, s, art, d, after))
  {
    if Judge(s.main, art) == Requeue {
      RequeueJoint(cfg, s, art, d, after);
    }
  }

  lemma RequeueJoint(cfg: Config, s: State, art: nat, d: Draw, after: Handler)
    requires PoolOk(s.pool, HandOf(after)) && |s.pool.conns| == |cfg.confs| && Judge(s.main, art) == Requeue
    requires after.Idle? || (after.BecomingReady? && s.pool.At(after.conn).state == Authenticated)
    ensures Joint(cfg, Resubmit(cfg, s, art, d, after))
  {
    DispatchOrQueueKeeps(s.pool, HandOf(after), PostCmd(art), false);
    if after.BecomingReady? {
      DispatchKeepsHand(s.pool, after.conn, PostCmd(art));
    }
  }

  lemma PostFinishedJoint(cfg: Config, s: State, c: nat, art: nat, r: PostResult, d: Draw)
    requires PoolOk(s.pool, Some(c)) && |s.pool.conns| == |cfg.confs| && s.pool.At(c).state == Authenticated
    ensures Joint(cfg, OnPostFinished(cfg, s, c, art, r, d))
  {
    match r {
      case PostingNotPermitted =>
        HandCloses(s.pool, c);
        DiscardKeeps(s.pool.With(c, s.pool.At(c).Close()), c);
      case PostFailure => ResubmitJoint(cfg, s, art, d, BecomingReady(c));
      case PostConnectionError =>
        ReconnectKeeps(s.pool, c);
        ResubmitJoint(cfg, s.(pool := s.pool.Reconnect(c)), art, d, Idle);
      case PostSuccess =>
        BecomesReadyKeeps(s.pool, c);
        BecomesReadyLists(s.pool, c);
    }
  }

  lemma HandCloses(p: Pool, c: nat)
    requires PoolOk(p, Some(c)) && p.At(c).state == Authenticated
    ensures var q := p.With(c, p.At(c).Close());
            PoolOk(q, Some(c)) && q.At(c).state == Disconnected
  {
    var q := p.With(c, p.At(c).Close());
    assert RoleOk(p, Some(c), c);
    forall x | 0 <= x < |q.conns|
      ensures RoleOk(q, Some(c), x)
    {
      assert RoleOk(p, Some(c), x);
    }
  }

  lemma ConnectedJoint(cfg: Config, s: State, step: Step)
    requires Joint(cfg, s) && Enabled(cfg, s, step) && step.Connected?
    ensures Joint(cfg, Next(cfg, s, step))
  {
    var c := step.conn;
    EnterKeeps(s.pool, c, step.i);
    var p := s.pool.Enter(c, step.i);
    if p.At(c).state == Authenticated {
      BecomesReadyKeeps(p, c);
      BecomesReadyLists(p, c);
    } else {
      DiscardKeeps(p, c);
    }
  }

  lemma PostDoneJoint(cfg: Config, s: State, step: Step)
    requires Joint(cfg, s) && Enabled(cfg, s, step) && step.PostDone?
    ensures Joint(cfg, Next(cfg, s, step))
  {
    var c, t := step.conn, s.pool.At(step.conn).pending[step.i];
    EnterKeeps(s.pool, c, step.i);
    PostFinishedJoint(cfg, s.(pool := s.pool.Enter(c, step.i)), c, t.art.value, t.post, step.draw);
  }

  lemma StatDoneJoint(cfg: Config, s: State, step: Step)
    requires Joint(cfg, s) && Enabled(cfg, s, step) && step.StatDone?
    ensures Joint(cfg, Next(cfg, s, step))
  {
    var c, t := step.conn, s.pool.At(step.conn).pending[step.i];
    EnterKeeps(s.pool, c, step.i);
    var p := s.pool.Enter(c, step.i);
    if t.stat.StatConnectionError? {
      var cmd := StatCmd(t.id);
      DispatchOrQueueKeeps(p, Some(c), cmd, false);
      DispatchKeepsHand(p, c, cmd);
      SameRoles(p, p.Push(cmd, false), Some(c));
      ReconnectKeeps(if cfg.recheck then p.DispatchOrQueue(cmd, false) else p.Push(cmd, false), c);
    } else {
      BecomesReadyKeeps(p, c);
      BecomesReadyLists(p, c);
    }
  }

  lemma JointNext(cfg: Config, s: State, step: Step)
    requires Joint(cfg, s) && Enabled(cfg, s, step)
    ensures Joint(cfg, Next(cfg, s, step))
  {
    match step {
      case Submit =>
        if s.producer.next < |cfg.posts| {
          EnqueueJoint(cfg, s.(producer := s.producer.(next := s.producer.next + 1)), PostCmd(|s.main.arts|));
          SameRoles(Enqueue(cfg, s, PostCmd(|s.main.arts|)).pool, Next(cfg, s, step).pool, HandOf(s.io));
        } else {
          EnqueueJoint(cfg, s.(producer := s.producer.(next := s.producer.next + 1)), StatCmd(cfg.stats[s.producer.next - |cfg.posts|]));
        }
      case Wake => WakeJoint(cfg, s, s.producer.blocked.value);
      case Stop => SameRoles(s.pool, s.pool.(work := false), HandOf(s.io));
      case Progress(c, i, ev) => ProgressKeeps(s.pool, c, i, ev, cfg.confs[c], s.main.arts);
      case Connected(_, _) => ConnectedJoint(cfg, s, step);
      case PostDone(_, _, _) => PostDoneJoint(cfg, s, step);
      case StatDone(_, _) => StatDoneJoint(cfg, s, step);
      case Resume =>
        match s.io {
          case Dispatching(a) => DispatchOrQueueKeeps(s.pool, None, PostCmd(a), false);
          case BecomingReady(c) =>
            BecomesReadyKeeps(s.pool, c);
            BecomesReadyLists(s.pool, c);
          case Reporting(_, _) =>
        }
      case Exit =>
    }
  }

  lemma {:induction false} JointAlways(cfg: Config, run: seq<Step>)
    requires Legal(cfg, run)
    ensures Joint(cfg, After(cfg, run))
    decreases |run|
  {
    if run == [] {
      JointInit(cfg);
    } else {
      var before := run[..|run| - 1];
      JointAlways(cfg, before);
      JointNext(cfg, After(cfg, before), run[|run| - 1]);
    }
  }
}
