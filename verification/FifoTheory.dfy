/** The exclusion the comment in src/nntp/usenet.hpp asks for: never a ready connection beside a queued
    command. When it holds, the pool is a FIFO; it can fail, and exactly where is shown here. */
module FifoTheory {
  import opened Text
  import opened ConnModel
  import opened PoolModel
  import opened PoolTheory
  import opened PoolCounts
  import opened RunTheory

  predicate Exclusive(p: Pool)
  {
    p.ready != [] ==> p.queue == []
  }

  /** Commands are started in the order they came in. */
  predicate Fifo(p: Pool)
  {
    p.started + p.queue == p.arrivals
  }

  /** A step that pushes to the queue without looking at the ready list: the push after the wait, and the
      STAT connection-error branch. */
  predicate Unguarded(cfg: Config, s: State, step: Step)
    requires Enabled(cfg, s, step)
  {
    !cfg.recheck && (step.Wake? || (step.StatDone? && s.pool.At(step.conn).pending[step.i].stat.StatConnectionError?))
  }

  lemma DispatchIsExclusive(p: Pool, cmd: Command)
    requires Exclusive(p)
    ensures Exclusive(p.DispatchOrQueue(cmd, false))
    ensures Fifo(p) ==> Fifo(p.DispatchOrQueue(cmd, false))
  {
  }

  lemma BecomesReadyIsExclusive(p: Pool, c: nat)
    requires PoolOk(p, Some(c)) && p.At(c).state == Authenticated && Exclusive(p)
    ensures Exclusive(p.BecomesReady(c))
    ensures Fifo(p) ==> Fifo(p.BecomesReady(c))
  {
    BecomesReadyLists(p, c);
    if p.queue != [] {
      assert p.started + p.queue == (p.started + [p.queue[0]]) + p.queue[1..];
    }
  }

  lemma PostDoneIsExclusive(cfg: Config, s: State, step: Step)
    requires Joint(cfg, s) && Enabled(cfg, s, step) && step.PostDone? && Exclusive(s.pool)
    ensures Exclusive(Next(cfg, s, step).pool)
    ensures Fifo(s.pool) ==> Fifo(Next(cfg, s, step).pool)
  {
    var c, t := step.conn, s.pool.At(step.conn).pending[step.i];
    EnterKeeps(s.pool, c, step.i);
    var p := s.pool.Enter(c, step.i);
    match t.post {
      case PostingNotPermitted =>
      case PostFailure => DispatchIsExclusive(p, PostCmd(t.art.value));
      case PostConnectionError => DispatchIsExclusive(p.Reconnect(c), PostCmd(t.art.value));
      case PostSuccess => BecomesReadyIsExclusive(p, c);
    }
  }

  lemma SubmitIsExclusive(cfg: Config, s: State)
    requires Enabled(cfg, s, Submit) && Exclusive(s.pool)
    ensures Exclusive(Next(cfg, s, Submit).pool)
    ensures Fifo(s.pool) ==> Fifo(Next(cfg, s, Submit).pool)
  {
    var n := s.producer.next;
    DispatchIsExclusive(s.pool, if n < |cfg.posts| then PostCmd(|s.main.arts|) else StatCmd(cfg.stats[n - |cfg.posts|]));
  }

  lemma StatDoneExclusion(cfg: Config, s: State, step: Step)
    requires Joint(cfg, s) && Enabled(cfg, s, step) && step.StatDone? && Exclusive(s.pool)
    ensures Exclusive(Next(cfg, s, step).pool) <==> (Unguarded(cfg, s, step) ==> s.pool.ready == [])
    ensures Fifo(s.pool) ==> Fifo(Next(cfg, s, step).pool)
  {
    var c, t := step.conn, s.pool.At(step.conn).pending[step.i];
    EnterKeeps(s.pool, c, step.i);
    var p := s.pool.Enter(c, step.i);
    if t.stat.StatConnectionError? {
      DispatchIsExclusive(p, StatCmd(t.id));
    } else {
      BecomesReadyIsExclusive(p, c);
    }
  }

  /** One step: exclusion survives if and only if the step is guarded or finds no ready connection. */
  lemma StepExclusion(cfg: Config, s: State, step: Step)
    requires Joint(cfg, s) && Enabled(cfg, s, step) && Exclusive(s.pool)
    ensures Exclusive(Next(cfg, s, step).pool) <==> (Unguarded(cfg, s, step) ==> s.pool.ready == [])
    ensures Fifo(s.pool) ==> Fifo(Next(cfg, s, step).pool)
  {
    match step {
      case Submit => SubmitIsExclusive(cfg, s);
      case Wake => DispatchIsExclusive(s.pool, s.producer.blocked.value);
      case Stop =>
      case Progress(_, _, _) =>
      case Connected(c, i) =>
        EnterKeeps(s.pool, c, i);
        if s.pool.At(c).pending[i].connect.ConnectSuccess? {
          BecomesReadyIsExclusive(s.pool.Enter(c, i), c);
        }
      case PostDone(_, _, _) => PostDoneIsExclusive(cfg, s, step);
      case StatDone(_, _) => StatDoneExclusion(cfg, s, step);
      case Resume =>
        match s.io {
          case Dispatching(a) => DispatchIsExclusive(s.pool, PostCmd(a));
          case BecomingReady(c) => BecomesReadyIsExclusive(s.pool, c);
          case Reporting(_, _) =>
        }
      case Exit =>
    }
  }

  /** Exclusion in every state of a run. */
  ghost predicate AlwaysExclusive(cfg: Config, run: seq<Step>)
    requires Legal(cfg, run)
    decreases |run|
  {
    Exclusive(After(cfg, run).pool) && (run == [] || AlwaysExclusive(cfg, run[..|run| - 1]))
  }

  /** Every unguarded push of the run found the ready list empty. */
  ghost predicate LuckyPushes(cfg: Config, run: seq<Step>)
    requires Legal(cfg, run)
    decreases |run|
  {
    run == [] ||
    var before, last := run[..|run| - 1], run[|run| - 1];
    && LuckyPushes(cfg, before)
    && (Unguarded(cfg, After(cfg, before), last) ==> After(cfg, before).pool.ready == [])
  }

  /** Exactly the runs whose unguarded pushes all find an empty ready list keep the exclusion; and those
      runs start commands in the order of their arrival, resubmissions included. */
  lemma {:induction false} ExclusionIff(cfg: Config, run: seq<Step>)
    requires Legal(cfg, run)
    ensures AlwaysExclusive(cfg, run) <==> LuckyPushes(cfg, run)
    ensures AlwaysExclusive(cfg, run) ==> Fifo(After(cfg, run).pool)
    decreases |run|
  {
    if run != [] {
      var before, last := run[..|run| - 1], run[|run| - 1];
      ExclusionIff(cfg, before);
      JointAlways(cfg, before);
      if Exclusive(After(cfg, before).pool) {
        StepExclusion(cfg, After(cfg, before), last);
      }
      ExclusionNow(cfg, before);
    }
  }

  lemma ExclusionNow(cfg: Config, run: seq<Step>)
    requires Legal(cfg, run)
    ensures AlwaysExclusive(cfg, run) ==> Exclusive(After(cfg, run).pool)
  {
  }

  /** No STAT loses its connection in this run. */
  ghost predicate NoStatErrors(cfg: Config, run: seq<Step>)
    requires Legal(cfg, run)
    decreases |run|
  {
    run == [] ||
    var before, last := run[..|run| - 1], run[|run| - 1];
    && NoStatErrors(cfg, before)
    && (last.StatDone? ==> !After(cfg, before).pool.At(last.conn).pending[last.i].stat.StatConnectionError?)
  }

  lemma {:induction false} UnboundedNeverBlocks(cfg: Config, run: seq<Step>)
    requires Legal(cfg, run) && cfg.maxsize == 0
    ensures After(cfg, run).producer.blocked.None?
    decreases |run|
  {
    if run != [] {
      var before, last := run[..|run| - 1], run[|run| - 1];
      UnboundedNeverBlocks(cfg, before);
      if last.PostDone? {
        assert Next(cfg, After(cfg, before), last).producer == After(cfg, before).producer;
      }
    }
  }

  /** With an unbounded queue and no STAT connection error there is no unguarded push at all. */
  lemma {:induction false} UnboundedIsFifo(cfg: Config, run: seq<Step>)
    requires Legal(cfg, run) && cfg.maxsize == 0 && NoStatErrors(cfg, run)
    ensures AlwaysExclusive(cfg, run) && Fifo(After(cfg, run).pool)
    decreases |run|
  {
    UnboundedIsLucky(cfg, run);
    ExclusionIff(cfg, run);
  }

  lemma {:induction false} UnboundedIsLucky(cfg: Config, run: seq<Step>)
    requires Legal(cfg, run) && cfg.maxsize == 0 && NoStatErrors(cfg, run)
    ensures LuckyPushes(cfg, run)
    decreases |run|
  {
    if run != [] {
      UnboundedIsLucky(cfg, run[..|run| - 1]);
      UnboundedNeverBlocks(cfg, run[..|run| - 1]);
    }
  }

  /** Looking at the ready list again restores the exclusion and the order in every run, bounded queue and
      STAT errors included. */
  lemma {:induction false} RecheckRestores(cfg: Config, run: seq<Step>)
    requires Legal(cfg, run) && cfg.recheck
    ensures AlwaysExclusive(cfg, run) && Fifo(After(cfg, run).pool)
  {
    RecheckIsLucky(cfg, run);
    ExclusionIff(cfg, run);
  }

  lemma {:induction false} RecheckIsLucky(cfg: Config, run: seq<Step>)
    requires Legal(cfg, run) && cfg.recheck
    ensures LuckyPushes(cfg, run)
    decreases |run|
  {
    if run != [] {
      RecheckIsLucky(cfg, run[..|run| - 1]);
    }
  }
}
