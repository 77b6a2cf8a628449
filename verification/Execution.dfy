/** The program as an object and the step system: same states, run by run. What is proved of every run of the
    step system is a guarantee of the object's own fields. */
module Execution {
  import opened Text
  import opened ConnModel
  import opened PoolModel
  import opened RunTheory
  import opened TallyTheory
  import opened ReachTheory
  import opened Usenet
  import opened Program

  /** The object goes through exactly the states of the step system. So, whatever the schedule: no more pieces
      are reported posted than main submitted; an exit code 0 means that each of them was, exactly once; the
      queue stays within its bound; no request was ever refused; and a connection in the ready list is
      authenticated and has no article. */
  method Execute(cfg: Config, steps: seq<Step>) returns (program: Program)
    requires !cfg.recheck && Legal(cfg, steps)
    ensures fresh(program) && fresh(program.usenet) && fresh(program.usenet.conns)
    ensures program.Valid() && program.cfg == cfg && program.Abs() == After(cfg, steps)
    ensures program.numPosted == |program.posted| <= |program.arts| <= |cfg.posts|
    ensures program.exit == Some(EXIT_OK) ==>
              program.numPosted == |cfg.posts| && forall a | 0 <= a < |cfg.posts| :: InPosted(program.posted, a) == 1
    ensures cfg.maxsize > 0 ==> |program.usenet.queue| <= cfg.maxsize + |cfg.confs|
    ensures forall conn <- program.usenet.conns :: conn.hist.faults == 0
    ensures forall c <- program.usenet.ready ::
              program.usenet.conns[c].state == Authenticated && program.usenet.conns[c].article.None?
  {
    program := Run(cfg, steps);
    Guarantees(cfg, steps);
    ghost var p := program.usenet.Abs();
    assert p == After(cfg, steps).pool;
    forall conn <- program.usenet.conns
      ensures conn.hist.faults == 0
    {
      var c :| 0 <= c < |program.usenet.conns| && program.usenet.conns[c] == conn;
      assert p.conns[c] == conn.Abs();
    }
    forall c <- program.usenet.ready
      ensures program.usenet.conns[c].state == Authenticated && program.usenet.conns[c].article.None?
    {
      assert p.conns[c] == program.usenet.conns[c].Abs();
    }
  }

  method Run(cfg: Config, steps: seq<Step>) returns (program: Program)
    requires !cfg.recheck && Legal(cfg, steps)
    ensures fresh(program) && fresh(program.usenet) && fresh(program.usenet.conns)
    ensures program.Valid() && program.cfg == cfg && program.Abs() == After(cfg, steps)
    decreases |steps|
  {
    if steps == [] {
      program := new Program(cfg);
    } else {
      var before := steps[..|steps| - 1];
      program := Run(cfg, before);
      JointAlways(cfg, before);
      HandIsThere(cfg, After(cfg, before));
      program.Do(steps[|steps| - 1]);
    }
  }

  lemma HandIsThere(cfg: Config, s: State)
    requires Joint(cfg, s)
    ensures s.io.BecomingReady? ==> s.io.conn < |s.pool.conns|
  {
  }

  /** The guarantees, of the state of the step system. */
  lemma {:induction false} Guarantees(cfg: Config, steps: seq<Step>)
    requires Legal(cfg, steps)
    ensures var s := After(cfg, steps);
            && s.main.numPosted == |s.main.posted| <= |s.main.arts| <= |cfg.posts|
            && (s.exit == Some(EXIT_OK) ==>
                  s.main.numPosted == |cfg.posts| && forall a | 0 <= a < |cfg.posts| :: InPosted(s.main.posted, a) == 1)
            && (cfg.maxsize > 0 ==> |s.pool.queue| <= cfg.maxsize + |cfg.confs|)
            && |s.pool.conns| == |cfg.confs|
            && (forall c | 0 <= c < |s.pool.conns| :: s.pool.conns[c].hist.faults == 0)
            && (forall c <- s.pool.ready ::
                  c < |s.pool.conns| && s.pool.conns[c].state == Authenticated && s.pool.conns[c].article.None?)
  {
    var s := After(cfg, steps);
    RemainingNeverUnderflows(cfg, steps);
    QueueBound(cfg, steps);
    JointAlways(cfg, steps);
    if s.exit == Some(EXIT_OK) {
      ExitOk(cfg, steps, 0);
      forall a | 0 <= a < |cfg.posts|
        ensures InPosted(s.main.posted, a) == 1
      {
        ExitOk(cfg, steps, a);
      }
    }
    forall c | 0 <= c < |s.pool.conns|
      ensures s.pool.conns[c].hist.faults == 0
    {
      RolesAlways(cfg, steps, c);
    }
    forall c <- s.pool.ready
      ensures c < |s.pool.conns| && s.pool.conns[c].state == Authenticated && s.pool.conns[c].article.None?
    {
      RolesAlways(cfg, steps, c);
    }
  }
}
