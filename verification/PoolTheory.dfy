/** What each operation of the pool keeps: the roles of the connections, the commands in hand, and the
    load. `hand` is the connection whose handler is running, if it is between two roles. */
module PoolTheory {
  import opened Text
  import opened Message
  import opened ConnModel
  import opened ConnTheory
  import opened PoolModel

  // ---- Lists of connections ---------------------------------------------------------------------

  ghost predicate NoDup(s: seq<nat>)
  {
    s == [] || (s[0] !in s[1..] && NoDup(s[1..]))
  }

  lemma {:induction false} WithoutIs(s: seq<nat>, c: nat)
    ensures forall x :: x in Without(s, c) <==> x in s && x != c
    ensures |Without(s, c)| <= |s|
    ensures c in s ==> |Without(s, c)| < |s|
  {
    if s != [] {
      WithoutIs(s[1..], c);
      assert s == [s[0]] + s[1..];
    }
  }

  lemma {:induction false} WithoutNoDup(s: seq<nat>, c: nat)
    requires NoDup(s)
    ensures NoDup(Without(s, c))
  {
    if s != [] {
      WithoutNoDup(s[1..], c);
      WithoutIs(s[1..], c);
      if s[0] != c {
        assert Without(s, c)[1..] == Without(s[1..], c);
      }
    }
  }

  lemma {:induction false} AppendNoDup(s: seq<nat>, c: nat)
    requires NoDup(s) && c !in s
    ensures NoDup(s + [c])
  {
    if s == [] {
      assert s + [c] == [c];
    } else {
      AppendNoDup(s[1..], c);
      assert (s + [c])[1..] == s[1..] + [c];
    }
  }

  // ---- The submission loop ------------------------------------------------------------------------

  /** A turn of the submission loop is one enqueue, after the article of the job is built. */
  lemma JobOf(cfg: Config, s: State) returns (s1: State, cmd: Command)
    requires s.producer.next < cfg.Jobs()
    ensures SubmitJob(cfg, s) == Enqueue(cfg, s1, cmd)
    ensures s1.pool == s.pool && s1.io == s.io && s1.exit == s.exit && s1.main == s.main.(arts := s1.main.arts)
    ensures s1.producer == s.producer.(next := s.producer.next + 1)
    ensures if s.producer.next < |cfg.posts| then
              cmd == PostCmd(|s.main.arts|) && s1.main.arts == s.main.arts + [cfg.posts[s.producer.next].article]
            else cmd == StatCmd(cfg.stats[s.producer.next - |cfg.posts|]) && s1.main.arts == s.main.arts
  {
    var n := s.producer.next;
    s1 := s.(producer := s.producer.(next := n + 1));
    if n < |cfg.posts| {
      s1, cmd := s1.(main := s.main.(arts := s.main.arts + [cfg.posts[n].article])), PostCmd(|s.main.arts|);
    } else {
      cmd := StatCmd(cfg.stats[n - |cfg.posts|]);
    }
  }

  // ---- The joint invariant of pool and connections -----------------------------------------------

  /** Connection c is in exactly one role: ready, with nothing pending; busy, with exactly one pending
      task; in the hand of the running handler; or retired. */
  ghost predicate RoleOk(p: Pool, hand: Option<nat>, c: nat)
    requires c < |p.conns|
  {
    var k := p.conns[c];
    && Wf(k)
    && (c in p.ready ==> c !in p.busy && hand != Some(c) && Quiet(k) && k.state == Authenticated)
    && (c in p.busy ==>
          if hand == Some(c) then Quiet(k)
          else |k.pending| == 1 && !k.pending[0].WritingQuit?)
    && (c !in p.ready && c !in p.busy ==>
          && hand != Some(c) && Held(k).None?
          && (k.pending == [] || k.pending == [WritingQuit])
          && (k.pending == [] ==> k.state != Authenticated))
  }

  ghost predicate PoolOk(p: Pool, hand: Option<nat>)
  {
    && NoDup(p.ready) && NoDup(p.busy)
    && (forall c :: c in p.ready || c in p.busy ==> c < |p.conns|)
    && (hand.Some? ==> hand.value in p.busy)
    && (forall c :: 0 <= c < |p.conns| ==> RoleOk(p, hand, c))
  }

  /** Roles do not depend on the queue, the work flag or the history. */
  lemma SameRoles(p: Pool, q: Pool, hand: Option<nat>)
    requires PoolOk(p, hand)
    requires q.ready == p.ready && q.busy == p.busy && q.conns == p.conns
    ensures PoolOk(q, hand)
  {
    forall c | 0 <= c < |q.conns|
      ensures RoleOk(q, hand, c)
    {
      assert RoleOk(p, hand, c);
    }
  }

  lemma ReadyBecomesBusy(p: Pool, hand: Option<nat>, k: Conn)
    requires PoolOk(p, hand) && p.ready != []
    requires Wf(k) && |k.pending| == 1 && !k.pending[0].WritingQuit?
    ensures PoolOk(p.(ready := p.ready[1..], busy := [p.ready[0]] + p.busy).With(p.ready[0], k), hand)
  {
    var c := p.ready[0];
    var q := p.(ready := p.ready[1..], busy := [c] + p.busy).With(c, k);
    assert c in p.ready && RoleOk(p, hand, c);
    assert q.busy[1..] == p.busy && p.ready == [c] + p.ready[1..];
    assert forall x :: x in q.ready <==> x in p.ready && x != c;
    assert forall x :: x in q.busy <==> x in p.busy || x == c;
    forall x | 0 <= x < |q.conns|
      ensures RoleOk(q, hand, x)
    {
      assert RoleOk(p, hand, x);
    }
  }

  /** Starting a command on a ready connection is accepted: that is RoleOk of the connection afterwards,
      which has no fault on record. */
  lemma StartOnReadyKeeps(p: Pool, hand: Option<nat>, cmd: Command)
    requires PoolOk(p, hand) && p.ready != []
    ensures PoolOk(p.StartOnReady(cmd), hand)
  {
    var c := p.ready[0];
    assert c in p.ready && RoleOk(p, hand, c);
    var k := match cmd case PostCmd(a) => p.conns[c].AsyncPost(a) case StatCmd(id) => p.conns[c].AsyncStat(id);
    match cmd {
      case PostCmd(a) => RequestsKeepWf(p.conns[c], a, "");
      case StatCmd(id) => RequestsKeepWf(p.conns[c], 0, id);
    }
    ReadyBecomesBusy(p, hand, k);
    SameRoles(p.(ready := p.ready[1..], busy := [c] + p.busy).With(c, k), p.StartOnReady(cmd), hand);
  }

  lemma DispatchOrQueueKeeps(p: Pool, hand: Option<nat>, cmd: Command, front: bool)
    requires PoolOk(p, hand)
    ensures PoolOk(p.DispatchOrQueue(cmd, front), hand)
  {
    if p.ready != [] {
      SameRoles(p, p.Arrive(cmd), hand);
      StartOnReadyKeeps(p.Arrive(cmd), hand, cmd);
    } else {
      SameRoles(p, p.DispatchOrQueue(cmd, front), hand);
    }
  }

  /** Only the connection in hand changes: it becomes busy again with a task of its own. */
  lemma HandBecomesBusy(p: Pool, c: nat, k: Conn)
    requires PoolOk(p, Some(c))
    requires Wf(k) && |k.pending| == 1 && !k.pending[0].WritingQuit?
    ensures PoolOk(p.With(c, k), None)
  {
    var q := p.With(c, k);
    forall x | 0 <= x < |q.conns|
      ensures RoleOk(q, None, x)
    {
      assert RoleOk(p, Some(c), x);
    }
  }

  lemma HandBecomesReady(p: Pool, c: nat)
    requires PoolOk(p, Some(c)) && p.At(c).state == Authenticated
    ensures PoolOk(p.(busy := Without(p.busy, c), ready := p.ready + [c]), None)
  {
    var q := p.(busy := Without(p.busy, c), ready := p.ready + [c]);
    assert RoleOk(p, Some(c), c);
    WithoutIs(p.busy, c);
    WithoutNoDup(p.busy, c);
    AppendNoDup(p.ready, c);
    forall x | 0 <= x < |q.conns|
      ensures RoleOk(q, None, x)
    {
      assert RoleOk(p, Some(c), x);
    }
  }

  /** The connection in hand leaves the lists, closed or never authenticated, or hanging up. */
  lemma HandRetires(p: Pool, c: nat, k: Conn)
    requires PoolOk(p, Some(c))
    requires Wf(k) && Held(k).None?
    requires k.pending == [WritingQuit] || (k.pending == [] && k.state != Authenticated)
    ensures PoolOk(p.(busy := Without(p.busy, c)).With(c, k), None)
  {
    var q := p.(busy := Without(p.busy, c)).With(c, k);
    assert RoleOk(p, Some(c), c);
    WithoutIs(p.busy, c);
    WithoutNoDup(p.busy, c);
    forall x | 0 <= x < |q.conns|
      ensures RoleOk(q, None, x)
    {
      assert RoleOk(p, Some(c), x);
    }
  }

  lemma HangupFirstKeeps(p: Pool)
    requires PoolOk(p, None) && p.ready != []
    ensures PoolOk(p.Hangup(p.ready[0]).(ready := p.ready[1..]), None)
  {
    var c := p.ready[0];
    var q := p.Hangup(c).(ready := p.ready[1..]);
    assert c in p.ready && RoleOk(p, None, c);
    assert p.ready == [c] + p.ready[1..];
    assert forall x :: x in q.ready <==> x in p.ready && x != c;
    RequestsKeepWf(p.conns[c], 0, "");
    forall x | 0 <= x < |q.conns|
      ensures RoleOk(q, None, x)
    {
      assert RoleOk(p, None, x);
    }
  }

  lemma {:induction false} HangupReadyKeeps(p: Pool)
    requires PoolOk(p, None)
    ensures PoolOk(p.HangupReady(), None)
    decreases |p.ready|
  {
    if p.ready != [] {
      HangupFirstKeeps(p);
      HangupReadyKeeps(p.Hangup(p.ready[0]).(ready := p.ready[1..]));
    }
  }

  lemma BecomesReadyKeeps(p: Pool, c: nat)
    requires PoolOk(p, Some(c)) && p.At(c).state == Authenticated
    ensures PoolOk(p.BecomesReady(c), None)
  {
    assert RoleOk(p, Some(c), c);
    var k := p.conns[c];
    if p.queue != [] {
      var p1 := p.(queue := p.queue[1..]);
      SameRoles(p, p1, Some(c));
      match p.queue[0] {
        case PostCmd(a) =>
          RequestsKeepWf(k, a, "");
          HandBecomesBusy(p1, c, k.AsyncPost(a));
          SameRoles(p1.With(c, k.AsyncPost(a)), p.BecomesReady(c), None);
        case StatCmd(id) =>
          RequestsKeepWf(k, 0, id);
          HandBecomesBusy(p1, c, k.AsyncStat(id));
          SameRoles(p1.With(c, k.AsyncStat(id)), p.BecomesReady(c), None);
      }
    } else if p.work {
      HandBecomesReady(p, c);
    } else {
      RequestsKeepWf(k, 0, "");
      HandRetires(p, c, k.AsyncGracefulDisconnect());
      HangupReadyKeeps(p.(busy := Without(p.busy, c)).Hangup(c));
    }
  }

  lemma DiscardKeeps(p: Pool, c: nat)
    requires PoolOk(p, Some(c)) && p.At(c).state != Authenticated
    ensures PoolOk(p.Discard(c), None)
  {
    assert RoleOk(p, Some(c), c);
    HandRetires(p, c, p.conns[c]);
    SameRoles(p.(busy := Without(p.busy, c)).With(c, p.conns[c]), p.Discard(c), None);
  }

  lemma ReconnectKeeps(p: Pool, c: nat)
    requires PoolOk(p, Some(c))
    ensures PoolOk(p.Reconnect(c), None)
  {
    assert RoleOk(p, Some(c), c);
    HandBecomesBusy(p, c, p.conns[c].Close().AsyncConnect());
  }

  /** Entering a handler takes the connection in hand. Only busy connections have handlers to run. */
  lemma EnterKeeps(p: Pool, c: nat, i: nat)
    requires PoolOk(p, None) && i < |p.At(c).pending| && p.At(c).Calls(p.At(c).pending[i])
    ensures i == 0 && c < |p.conns| && p.conns[c].pending == [p.conns[c].pending[0]] && c in p.busy
    ensures PoolOk(p.Enter(c, i), Some(c))
    ensures p.Enter(c, i).At(c).state == p.conns[c].state
    ensures Fits(p.conns[c], p.conns[c].pending[0])
  {
    assert RoleOk(p, None, c);
    var q := p.Enter(c, i);
    assert q.conns[c].pending == [];
    forall x | 0 <= x < |q.conns|
      ensures RoleOk(q, Some(c), x)
    {
      assert RoleOk(p, None, x);
    }
  }

  /** A task that completes inside a connection moves the connection to no other role. */
  lemma ProgressKeeps(p: Pool, c: nat, i: nat, ev: Event, conf: Conf, store: seq<Article>)
    requires PoolOk(p, None) && c < |p.conns| && p.conns[c].CanComplete(i, ev)
    ensures i == 0 && PoolOk(p.With(c, p.conns[c].Complete(i, ev, conf, store)), None)
  {
    assert RoleOk(p, None, c);
    var k' := p.conns[c].Complete(i, ev, conf, store);
    var q := p.With(c, k');
    CompleteKeepsWf(p.conns[c], ev, conf, store);
    assert p.conns[c].pending == [WritingQuit] ==> k'.pending == [] && k'.state == Disconnected;
    forall x | 0 <= x < |q.conns|
      ensures RoleOk(q, None, x)
    {
      assert RoleOk(p, None, x);
    }
  }
}
