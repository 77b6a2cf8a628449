/** Where a run can come to a halt: at an exit, or with the producer waiting for room that nobody will make. */
module ProgressTheory {
  import opened Text
  import opened ConnModel
  import opened PoolModel
  import opened PoolTheory
  import opened PoolCounts
  import opened RunTheory
  import opened BudgetTheory
  import opened FifoTheory
  import opened Traces

  /** No thread can take a step. */
  ghost predicate Halted(cfg: Config, s: State)
  {
    forall step: Step :: !Enabled(cfg, s, step)
  }

  /** The producer waits, the queue is full, and nothing is under way that could empty it. */
  ghost predicate Starved(cfg: Config, s: State)
  {
    s.producer.blocked.Some? && s.pool.Full(cfg.maxsize) && s.io.Idle? && s.pool.Quiescent()
  }

  ghost predicate Orderly(cfg: Config, s: State)
  {
    && (s.io.Dying? ==> s.exit.Some?)
    && s.producer.next <= cfg.Jobs()
    && (s.producer.stopped ==> !s.pool.work && s.producer.next == cfg.Jobs())
  }

  lemma DispatchWork(p: Pool, cmd: Command, front: bool)
    ensures p.DispatchOrQueue(cmd, front).work == p.work
  {
  }

  lemma {:induction false} HangupWork(p: Pool)
    ensures p.HangupReady().work == p.work
    decreases |p.ready|
  {
    if p.ready != [] {
      HangupWork(p.Hangup(p.ready[0]).(ready := p.ready[1..]));
    }
  }

  lemma BecomesReadyWork(p: Pool, c: nat)
    ensures p.BecomesReady(c).work == p.work
  {
    HangupWork(p.(busy := Without(p.busy, c)).Hangup(c));
  }

  lemma ResubmitOrderly(cfg: Config, s: State, art: nat, d: Draw, after: Handler)
    requires !after.Dying?
    ensures var s' := Resubmit(cfg, s, art, d, after);
            s'.pool.work == s.pool.work && s'.producer == s.producer && (s'.io.Dying? ==> s'.exit.Some?)
  {
    DispatchWork(s.pool, PostCmd(art), false);
  }

  lemma PostDoneOrderly(cfg: Config, s: State, step: Step)
    requires Enabled(cfg, s, step) && step.PostDone?
    ensures var s' := Next(cfg, s, step);
            (s'.pool.work ==> s.pool.work) && s'.producer == s.producer && (s'.io.Dying? ==> s'.exit.Some?)
  {
    var c, t := step.conn, s.pool.At(step.conn).pending[step.i];
    var p := s.pool.Enter(c, step.i);
    BecomesReadyWork(p, c);
    ResubmitOrderly(cfg, s.(pool := p), t.art.value, step.draw, BecomingReady(c));
    ResubmitOrderly(cfg, s.(pool := p.Reconnect(c)), t.art.value, step.draw, Idle);
  }

  lemma OrderlyNext(cfg: Config, s: State, step: Step)
    requires Orderly(cfg, s) && Enabled(cfg, s, step)
    ensures Orderly(cfg, Next(cfg, s, step))
  {
    match step {
      case Submit =>
        var n := s.producer.next;
        DispatchWork(s.pool, if n < |cfg.posts| then PostCmd(|s.main.arts|) else StatCmd(cfg.stats[n - |cfg.posts|]), false);
      case Wake => DispatchWork(s.pool, s.producer.blocked.value, false);
      case Connected(c, i) => BecomesReadyWork(s.pool.Enter(c, i), c);
      case PostDone(_, _, _) => PostDoneOrderly(cfg, s, step);
      case StatDone(c, i) =>
        var p := s.pool.Enter(c, i);
        BecomesReadyWork(p, c);
        DispatchWork(p, StatCmd(s.pool.At(c).pending[i].id), false);
      case Resume =>
        match s.io {
          case Dispatching(a) => DispatchWork(s.pool, PostCmd(a), false);
          case BecomingReady(c) => BecomesReadyWork(s.pool, c);
          case Reporting(_, _) =>
        }
      case _ =>
    }
  }

  lemma {:induction false} OrderlyAlways(cfg: Config, run: seq<Step>)
    requires Legal(cfg, run)
    ensures Orderly(cfg, After(cfg, run))
    decreases |run|
  {
    if run != [] {
      OrderlyAlways(cfg, run[..|run| - 1]);
      OrderlyNext(cfg, After(cfg, run[..|run| - 1]), run[|run| - 1]);
    }
  }

  /** A task that is pending can always complete somehow. */
  lemma PendingMoves(cfg: Config, s: State, c: nat) returns (step: Step)
    requires Joint(cfg, s) && s.io.Idle? && s.exit.None? && c < |s.pool.conns| && s.pool.conns[c].pending != []
    ensures Enabled(cfg, s, step)
  {
    assert RoleOk(s.pool, None, c);
    var k := s.pool.conns[c];
    var t := k.pending[0];
    if t.ConnectDone? {
      step := Step.Connected(c, 0);
    } else if t.PostDone? {
      step := Step.PostDone(c, 0, SomeDraw());
    } else if t.StatDone? {
      step := Step.StatDone(c, 0);
    } else if k.Awaits(t) {
      assert TextOf(k.readbuf) + "" == TextOf(k.readbuf);
      step := Step.Progress(c, 0, if LineEnd(TextOf(k.readbuf)) != 0 then Data("") else Err(""));
    } else {
      step := Step.Progress(c, 0, Ok);
    }
  }

  /** Unless the producer starves, some thread can go on. */
  lemma SomeStep(cfg: Config, s: State) returns (step: Step)
    requires Joint(cfg, s) && Orderly(cfg, s) && s.exit.None? && !Starved(cfg, s)
    ensures Enabled(cfg, s, step)
  {
    if !s.io.Idle? {
      step := Resume;
    } else if !s.pool.Quiescent() {
      var c :| 0 <= c < |s.pool.conns| && s.pool.conns[c].pending != [];
      step := PendingMoves(cfg, s, c);
    } else if s.producer.blocked.Some? {
      step := Wake;
    } else if s.producer.next < cfg.Jobs() {
      step := Submit;
    } else if !s.producer.stopped {
      step := Stop;
    } else {
      step := Exit;
    }
  }

  /** The one way to hang: in every reachable state that has not exited, no thread can take a step if and
      only if the producer waits at a full queue and no connection has anything under way. */
  lemma {:induction false} HaltedIff(cfg: Config, run: seq<Step>)
    requires Legal(cfg, run) && After(cfg, run).exit.None?
    ensures Halted(cfg, After(cfg, run)) <==> Starved(cfg, After(cfg, run))
  {
    var s := After(cfg, run);
    JointAlways(cfg, run);
    OrderlyAlways(cfg, run);
    if !Starved(cfg, s) {
      var step := SomeStep(cfg, s);
      assert Enabled(cfg, s, step);
    } else {
      forall step: Step
        ensures !Enabled(cfg, s, step)
      {
        StarvedStays(cfg, s, step);
      }
    }
  }

  lemma StarvedStays(cfg: Config, s: State, step: Step)
    requires Joint(cfg, s) && Orderly(cfg, s) && Starved(cfg, s)
    ensures !Enabled(cfg, s, step)
  {
    match step {
      case Progress(c, i, ev) => assert c < |s.pool.conns| ==> s.pool.conns[c].pending == [];
      case Connected(c, i) => assert c < |s.pool.conns| ==> s.pool.conns[c].pending == [];
      case PostDone(c, i, _) => assert c < |s.pool.conns| ==> s.pool.conns[c].pending == [];
      case StatDone(c, i) => assert c < |s.pool.conns| ==> s.pool.conns[c].pending == [];
      case _ =>
    }
  }

  // ---- The work flag ----------------------------------------------------------------------------------------

  predicate Live(p: Pool)
  {
    p.ready != [] || p.busy != []
  }

  ghost predicate FlagOk(s: State)
  {
    s.pool.work <==> !s.producer.stopped && Live(s.pool)
  }

  lemma BecomesReadyFlag(s: State, p: Pool, c: nat)
    requires PoolOk(p, Some(c)) && p.At(c).state == Authenticated
    requires FlagOk(s) && p.work == s.pool.work && p.ready == s.pool.ready && p.busy == s.pool.busy
    ensures FlagOk(s.(pool := p.BecomesReady(c)))
  {
    BecomesReadyLists(p, c);
  }

  lemma DispatchLive(p: Pool, cmd: Command)
    ensures var q := p.DispatchOrQueue(cmd, false); q.work == p.work && (Live(q) <==> Live(p))
  {
  }

  lemma ResubmitFlag(cfg: Config, s: State, art: nat, d: Draw, after: Handler)
    requires FlagOk(s)
    ensures FlagOk(Resubmit(cfg, s, art, d, after))
  {
    DispatchLive(s.pool, PostCmd(art));
  }

  lemma PostDoneFlag(cfg: Config, s: State, step: Step)
    requires Joint(cfg, s) && FlagOk(s) && Enabled(cfg, s, step) && step.PostDone?
    ensures FlagOk(Next(cfg, s, step))
  {
    var c, t := step.conn, s.pool.At(step.conn).pending[step.i];
    EnterKeeps(s.pool, c, step.i);
    var p := s.pool.Enter(c, step.i);
    match t.post {
      case PostingNotPermitted =>
      case PostFailure => ResubmitFlag(cfg, s.(pool := p), t.art.value, step.draw, BecomingReady(c));
      case PostConnectionError => ResubmitFlag(cfg, s.(pool := p.Reconnect(c)), t.art.value, step.draw, Idle);
      case PostSuccess => BecomesReadyFlag(s, p, c);
    }
  }

  lemma ConnectedFlag(cfg: Config, s: State, step: Step)
    requires Joint(cfg, s) && FlagOk(s) && Enabled(cfg, s, step) && step.Connected?
    ensures FlagOk(Next(cfg, s, step))
  {
    var c, i := step.conn, step.i;
    EnterKeeps(s.pool, c, i);
    if s.pool.At(c).pending[i].connect.ConnectSuccess? {
      BecomesReadyFlag(s, s.pool.Enter(c, i), c);
    }
  }

  lemma StatDoneFlag(cfg: Config, s: State, step: Step)
    requires Joint(cfg, s) && FlagOk(s) && Enabled(cfg, s, step) && step.StatDone?
    ensures FlagOk(Next(cfg, s, step))
  {
    var c, i := step.conn, step.i;
    EnterKeeps(s.pool, c, i);
    if !s.pool.At(c).pending[i].stat.StatConnectionError? {
      BecomesReadyFlag(s, s.pool.Enter(c, i), c);
    }
  }

  lemma FlagNext(cfg: Config, s: State, step: Step)
    requires Joint(cfg, s) && FlagOk(s) && Enabled(cfg, s, step)
    ensures FlagOk(Next(cfg, s, step))
  {
    match step {
      case Submit =>
        var s1, cmd := JobOf(cfg, s);
        DispatchLive(s1.pool, cmd);
      case Wake => DispatchLive(s.pool, s.producer.blocked.value);
      case Connected(_, _) => ConnectedFlag(cfg, s, step);
      case PostDone(_, _, _) => PostDoneFlag(cfg, s, step);
      case StatDone(_, _) => StatDoneFlag(cfg, s, step);
      case Resume =>
        if s.io.BecomingReady? {
          BecomesReadyFlag(s, s.pool, s.io.conn);
        }
      case _ =>
    }
  }

  /** The io service is kept running exactly until stop() is called or the last connection is gone. */
  lemma {:induction false} WorkIff(cfg: Config, run: seq<Step>)
    requires Legal(cfg, run) && cfg.confs != []
    ensures var s := After(cfg, run);
            s.pool.work <==> !s.producer.stopped && (s.pool.ready != [] || s.pool.busy != [])
    decreases |run|
  {
    if run == [] {
      assert Init(cfg).pool.busy[0] == 0;
    } else {
      WorkIff(cfg, run[..|run| - 1]);
      JointAlways(cfg, run[..|run| - 1]);
      FlagNext(cfg, After(cfg, run[..|run| - 1]), run[|run| - 1]);
    }
  }

  // ---- Posts only -----------------------------------------------------------------------------------------

  /** While the producer waits, nothing is queued beside a ready connection. */
  lemma {:induction false} WaitingIsExclusive(cfg: Config, run: seq<Step>)
    requires Legal(cfg, run) && cfg.stats == []
    ensures After(cfg, run).producer.blocked.Some? ==> Exclusive(After(cfg, run).pool)
    decreases |run|
  {
    if run != [] {
      var before, last := run[..|run| - 1], run[|run| - 1];
      var s := After(cfg, before);
      WaitingIsExclusive(cfg, before);
      JointAlways(cfg, before);
      MeasureAlong(cfg, before);
      PostOnlyNext(cfg, s, last);
      if s.producer.blocked.Some? {
        StepExclusion(cfg, s, last);
      } else if last.PostDone? {
        PostDoneOrderly(cfg, s, last);
      }
    }
  }

  lemma NobodyBusy(p: Pool)
    requires PoolOk(p, None) && p.Quiescent()
    ensures p.busy == []
  {
    assert p.busy != [] ==> p.busy[0] in p.busy;
    forall c: nat
      ensures c !in p.busy
    {
      assert c < |p.conns| ==> RoleOk(p, None, c);
    }
  }

  /** Without STATs a run hangs exactly when the producer waits at a full queue and every connection has been
      discarded; nobody notifies it. */
  lemma {:induction false} PostOnlyHaltedIff(cfg: Config, run: seq<Step>)
    requires Legal(cfg, run) && After(cfg, run).exit.None? && cfg.stats == []
    ensures var s := After(cfg, run);
            Halted(cfg, s) <==>
              && s.producer.blocked.Some? && s.pool.Full(cfg.maxsize) && s.io.Idle? && s.pool.Quiescent()
              && s.pool.ready == [] && s.pool.busy == []
  {
    var s := After(cfg, run);
    HaltedIff(cfg, run);
    JointAlways(cfg, run);
    if Starved(cfg, s) {
      WaitingIsExclusive(cfg, run);
      NobodyBusy(s.pool);
    }
  }

  /** And it can happen: for every queue bound, one connection that cannot connect is enough. */
  lemma {:induction false} ProducerHangs(cfg: Config) returns (run: seq<Step>)
    requires |cfg.confs| == 1 && 1 <= cfg.maxsize < |cfg.posts|
    ensures Legal(cfg, run) && After(cfg, run).exit.None? && Halted(cfg, After(cfg, run))
  {
    var r0 := FillQueue(cfg, cfg.maxsize);
    Extend(cfg, r0, Submit);
    var r1 := r0 + [Submit];
    BlocksProducer(cfg, After(cfg, r0));
    var ok, err := Step.Progress(0, 0, Ok), Step.Progress(0, 0, Err(""));
    CannotConnect(cfg, After(cfg, r1));
    Extend(cfg, r1, ok);
    Extend(cfg, r1 + [ok], err);
    Extend(cfg, r1 + [ok] + [err], Step.Connected(0, 0));
    run := r1 + [ok] + [err] + [Step.Connected(0, 0)];
    HaltedIff(cfg, run);
  }

  /** The producer waits at a full queue, and the only connection, busy, has t pending. */
  ghost predicate Alone(cfg: Config, s: State, t: Task)
  {
    && s.exit.None? && s.io.Idle? && s.producer.blocked.Some? && s.pool.Full(cfg.maxsize)
    && s.pool.ready == [] && |s.pool.conns| == 1 == |cfg.confs| && s.pool.conns[0].pending == [t]
  }

  lemma BeginsToConnect(cfg: Config, s: State)
    requires Alone(cfg, s, RunConnect)
    ensures Enabled(cfg, s, Step.Progress(0, 0, Ok)) && Alone(cfg, Next(cfg, s, Step.Progress(0, 0, Ok)), Resolving)
  {
    assert s.pool.conns[0].Done(0).pending == [];
  }

  lemma FailsToResolve(cfg: Config, s: State)
    requires Alone(cfg, s, Resolving)
    ensures Enabled(cfg, s, Step.Progress(0, 0, Err("")))
    ensures Alone(cfg, Next(cfg, s, Step.Progress(0, 0, Err(""))), ConnectDone(FatalConnectError))
  {
    assert s.pool.conns[0].Done(0).pending == [];
  }

  lemma IsDiscarded(cfg: Config, s: State)
    requires Alone(cfg, s, ConnectDone(FatalConnectError))
    ensures Enabled(cfg, s, Step.Connected(0, 0))
    ensures var s' := Next(cfg, s, Step.Connected(0, 0)); Starved(cfg, s') && s'.exit.None?
  {
    assert s.pool.conns[0].Deliver(0).pending == [];
  }

  /** The only connection starts to connect, fails, and is discarded. */
  lemma CannotConnect(cfg: Config, s: State)
    requires |cfg.confs| == 1 && 1 <= cfg.maxsize && Waiting(cfg, s)
    ensures var ok, err, done := Step.Progress(0, 0, Ok), Step.Progress(0, 0, Err("")), Step.Connected(0, 0);
            && Enabled(cfg, s, ok) && Enabled(cfg, Next(cfg, s, ok), err)
            && Enabled(cfg, Next(cfg, Next(cfg, s, ok), err), done)
            && Starved(cfg, Next(cfg, Next(cfg, Next(cfg, s, ok), err), done))
            && Next(cfg, Next(cfg, Next(cfg, s, ok), err), done).exit.None?
  {
    BeginsToConnect(cfg, s);
    var s1 := Next(cfg, s, Step.Progress(0, 0, Ok));
    FailsToResolve(cfg, s1);
    IsDiscarded(cfg, Next(cfg, s1, Step.Progress(0, 0, Err(""))));
  }
}
