/** Exactly which runs start the commands in the order in which they came in. */
module OrderTheory {
  import opened Text
  import opened ConnModel
  import opened PoolModel
  import opened PoolTheory
  import opened PoolCounts
  import opened RunTheory
  import opened TallyTheory
  import opened IdTheory
  import opened BudgetTheory
  import opened FifoTheory

  /** The step takes a command to dispatch_or_queue, or to its equivalent at the head of enqueue_*. */
  predicate Dispatches(cfg: Config, s: State, step: Step)
    requires Enabled(cfg, s, step)
  {
    match step
    case Submit => true
    case Wake => cfg.recheck
    case PostDone(c, i, _) =>
      var t := s.pool.At(c).pending[i];
      (t.post.PostFailure? || t.post.PostConnectionError?) && Judge(s.main, t.art.value) == Requeue
    case Resume => s.io.Dispatching?
    case _ => false
  }

  /** A ready connection beside a queue that is not empty. */
  predicate Crowded(p: Pool)
  {
    p.ready != [] && p.queue != []
  }

  /** It finds a ready connection and a queue that is not empty: the new command goes first. */
  predicate Overtakes(cfg: Config, s: State, step: Step)
    requires Enabled(cfg, s, step)
  {
    Dispatches(cfg, s, step) && Crowded(s.pool)
  }

  /** What was started so far came in first. */
  predicate InOrder(p: Pool)
  {
    p.started <= p.arrivals
  }

  ghost predicate Counted(p: Pool)
  {
    |p.started| + |p.queue| == |p.arrivals|
  }

  // ---- One operation of the pool --------------------------------------------------------------------------

  /** What came in and what was started only grow, and nothing is lost in between. */
  ghost predicate Grows(p: Pool, q: Pool)
  {
    && p.started <= q.started && p.arrivals <= q.arrivals
    && (Counted(p) ==> Counted(q))
  }

  lemma DisorderStays(p: Pool, q: Pool)
    requires Grows(p, q) && Counted(p) && !InOrder(p)
    ensures !InOrder(q)
  {
  }

  lemma DispatchGrows(p: Pool, cmd: Command)
    ensures Grows(p, p.DispatchOrQueue(cmd, false)) && Grows(p, p.Push(cmd, false))
    ensures Fifo(p) ==> Fifo(p.Push(cmd, false))
  {
    assert Fifo(p) ==> p.started + (p.queue + [cmd]) == p.arrivals + [cmd];
  }

  /** A dispatch keeps the order exactly when it does not overtake; and then the order is lost for good. */
  lemma DispatchOrder(p: Pool, a: nat)
    requires Fifo(p) && InCommands(p.queue, a) == 0
    ensures var q := p.DispatchOrQueue(PostCmd(a), false);
            && (Fifo(q) <==> (p.ready == [] || p.queue == []))
            && (!Fifo(q) ==> !InOrder(q))
  {
    var cmd, q := PostCmd(a), p.DispatchOrQueue(PostCmd(a), false);
    if p.ready == [] {
      DispatchGrows(p, cmd);
    } else if p.queue == [] {
      assert p.started + [cmd] + [] == p.started + [] + [cmd];
    } else {
      var n := |p.started|;
      assert p.queue[0] != cmd;
      assert q.started[n] == cmd && q.arrivals[n] == p.queue[0];
      assert (q.started + q.queue)[n] == cmd;
    }
  }

  lemma BecomesReadyOrder(p: Pool, c: nat)
    requires PoolOk(p, Some(c)) && p.At(c).state == Authenticated
    ensures Grows(p, p.BecomesReady(c))
    ensures Fifo(p) ==> Fifo(p.BecomesReady(c))
  {
    BecomesReadyLists(p, c);
    if p.queue != [] {
      assert p.started + p.queue == (p.started + [p.queue[0]]) + p.queue[1..];
    }
  }

  // ---- One step ---------------------------------------------------------------------------------------------

  /** From pool p to pool q the order is kept, or, if something overtook, lost for good. */
  ghost predicate Settles(p: Pool, q: Pool, overtook: bool)
  {
    && Grows(p, q)
    && (Fifo(p) ==> (Fifo(q) <==> !overtook) && (!Fifo(q) ==> !InOrder(q)))
  }

  ghost predicate Decides(cfg: Config, s: State, step: Step)
    requires Enabled(cfg, s, step)
  {
    Settles(s.pool, Next(cfg, s, step).pool, Overtakes(cfg, s, step))
  }


  /** A pool with the same lists, queue and history. */
  predicate SameQueue(p: Pool, q: Pool)
  {
    q.ready == p.ready && q.queue == p.queue && q.started == p.started && q.arrivals == p.arrivals
  }

  lemma SubmitDecides(cfg: Config, s: State)
    requires cfg.stats == [] && Enabled(cfg, s, Submit) && Tally(s, |s.main.arts|)
    ensures Decides(cfg, s, Submit)
  {
    var a := |s.main.arts|;
    DispatchGrows(s.pool, PostCmd(a));
    if Fifo(s.pool) {
      DispatchOrder(s.pool, a);
    }
  }

  lemma WakeDecides(cfg: Config, s: State)
    requires Enabled(cfg, s, Wake) && s.producer.blocked.value.PostCmd? && Tally(s, s.producer.blocked.value.art)
    ensures Decides(cfg, s, Wake)
  {
    var a := s.producer.blocked.value.art;
    DispatchGrows(s.pool, PostCmd(a));
    if Fifo(s.pool) {
      DispatchOrder(s.pool, a);
    }
  }

  lemma ResubmitSettles(cfg: Config, s: State, art: nat, d: Draw, after: Handler)
    requires InPool(s.pool, art) == 0
    ensures Settles(s.pool, Resubmit(cfg, s, art, d, after).pool, Judge(s.main, art) == Requeue && Crowded(s.pool))
  {
    DispatchGrows(s.pool, PostCmd(art));
    if Fifo(s.pool) {
      DispatchOrder(s.pool, art);
    }
  }

  lemma PostFinishedSettles(cfg: Config, s: State, c: nat, art: nat, r: PostResult, d: Draw)
    requires InPool(s.pool, art) == 0 && PoolOk(s.pool, Some(c)) && s.pool.At(c).state == Authenticated
    ensures Settles(s.pool, OnPostFinished(cfg, s, c, art, r, d).pool,
                    (r.PostFailure? || r.PostConnectionError?) && Judge(s.main, art) == Requeue && Crowded(s.pool))
  {
    match r {
      case PostingNotPermitted => assert SameQueue(s.pool, OnPostFinished(cfg, s, c, art, r, d).pool);
      case PostFailure => ResubmitSettles(cfg, s, art, d, BecomingReady(c));
      case PostConnectionError =>
        ReconnectCounts(s.pool, c, art);
        assert SameQueue(s.pool, s.pool.Reconnect(c));
        ResubmitSettles(cfg, s.(pool := s.pool.Reconnect(c)), art, d, Idle);
      case PostSuccess => BecomesReadyOrder(s.pool, c);
    }
  }

  lemma PostDoneDecides(cfg: Config, s: State, step: Step)
    requires Joint(cfg, s) && Enabled(cfg, s, step) && step.PostDone?
    requires Tally(s, s.pool.At(step.conn).pending[step.i].art.value)
    ensures Decides(cfg, s, step)
  {
    var c, t := step.conn, s.pool.At(step.conn).pending[step.i];
    EnterKeeps(s.pool, c, step.i);
    PendingIsBuilt(cfg, s, c, step.i);
    var p := s.pool.Enter(c, step.i);
    assert SameQueue(s.pool, p);
    PostFinishedSettles(cfg, s.(pool := p), c, t.art.value, t.post, step.draw);
  }

  lemma ResumeDecides(cfg: Config, s: State)
    requires Joint(cfg, s) && Enabled(cfg, s, Resume)
    requires s.io.Dispatching? ==> Tally(s, s.io.art)
    ensures Decides(cfg, s, Resume)
  {
    match s.io {
      case Dispatching(a) =>
        DispatchGrows(s.pool, PostCmd(a));
        if Fifo(s.pool) {
          DispatchOrder(s.pool, a);
        }
      case BecomingReady(c) => BecomesReadyOrder(s.pool, c);
      case Reporting(_, _) =>
    }
  }

  lemma ConnectedDecides(cfg: Config, s: State, step: Step)
    requires Joint(cfg, s) && Enabled(cfg, s, step) && step.Connected?
    ensures Decides(cfg, s, step)
  {
    EnterKeeps(s.pool, step.conn, step.i);
    if s.pool.At(step.conn).pending[step.i].connect.ConnectSuccess? {
      BecomesReadyOrder(s.pool.Enter(step.conn, step.i), step.conn);
    }
  }

  lemma StepDecides(cfg: Config, s: State, step: Step)
    requires cfg.stats == [] && Joint(cfg, s) && PostOnly(s) && Enabled(cfg, s, step)
    requires forall a :: Tally(s, a)
    ensures Decides(cfg, s, step)
  {
    PostOnlyNext(cfg, s, step);
    match step {
      case Submit => SubmitDecides(cfg, s);
      case Wake => WakeDecides(cfg, s);
      case Stop =>
      case Progress(_, _, _) =>
      case Connected(_, _) => ConnectedDecides(cfg, s, step);
      case PostDone(c, i, _) =>
        assert Tally(s, s.pool.At(c).pending[i].art.value);
        PostDoneDecides(cfg, s, step);
      case Resume => ResumeDecides(cfg, s);
      case Exit =>
    }
  }

  // ---- Runs -------------------------------------------------------------------------------------------------

  /** No step of the run sends a command past a queue. */
  ghost predicate NoOvertaking(cfg: Config, run: seq<Step>)
    requires Legal(cfg, run)
    decreases |run|
  {
    run == [] ||
    var before, last := run[..|run| - 1], run[|run| - 1];
    NoOvertaking(cfg, before) && !Overtakes(cfg, After(cfg, before), last)
  }

  /** Order, if and only if nothing overtook; otherwise lost for good. */
  lemma {:induction false} OrderAlong(cfg: Config, run: seq<Step>)
    requires Legal(cfg, run) && cfg.stats == []
    ensures Counted(After(cfg, run).pool)
    ensures NoOvertaking(cfg, run) ==> Fifo(After(cfg, run).pool)
    ensures !NoOvertaking(cfg, run) ==> !InOrder(After(cfg, run).pool)
    decreases |run|
  {
    if run != [] {
      var before, last := run[..|run| - 1], run[|run| - 1];
      var s := After(cfg, before);
      OrderAlong(cfg, before);
      JointAlways(cfg, before);
      MeasureAlong(cfg, before);
      AllTallied(cfg, before);
      StepDecides(cfg, s, last);
      if !NoOvertaking(cfg, before) {
        DisorderStays(s.pool, Next(cfg, s, last).pool);
      }
    }
  }

  /** The exact condition for first in, first out: a post-only run has started ++ queue = arrivals if and only
      if none of its steps met a ready connection beside a nonempty queue while it had a command to dispatch.
      A broken exclusion alone does not break the order. */
  lemma {:induction false} FifoIff(cfg: Config, run: seq<Step>)
    requires Legal(cfg, run) && cfg.stats == []
    ensures Fifo(After(cfg, run).pool) <==> NoOvertaking(cfg, run)
    ensures InOrder(After(cfg, run).pool) <==> NoOvertaking(cfg, run)
  {
    OrderAlong(cfg, run);
    var p := After(cfg, run).pool;
    assert Fifo(p) ==> p.started <= p.started + p.queue;
  }
}
