/** What is reported posted is what was sent: the bytes written for an article are the bytes of the article
    as the store has it at the end, because nobody changes an article while anybody answers for it. */
module WireTheory {
  import opened Text
  import opened Message
  import opened ConnModel
  import opened ConnTheory
  import opened PoolModel
  import opened PoolTheory
  import opened PoolCounts
  import opened RunTheory
  import opened TallyTheory
  import opened IdTheory

  /** The article has been handed to the socket, and not reported as a failure. */
  predicate Sending(t: Task)
  {
    t.WritingArticle? || t.AwaitArticleReply? || (t.PostDone? && t.post.PostSuccess?)
  }

  ghost predicate Carries(k: Conn, store: seq<Article>)
  {
    k.pending != [] && Sending(k.pending[0]) ==>
      Held(k).Some? && Held(k).value < |store| && k.sendParts == Wire(store[Held(k).value])
  }

  ghost predicate AllCarry(p: Pool, store: seq<Article>)
  {
    forall c :: 0 <= c < |p.conns| ==> Carries(p.conns[c], store)
  }

  ghost predicate PostedOk(posted: seq<Posted>, store: seq<Article>)
  {
    forall i :: 0 <= i < |posted| ==> posted[i].art < |store| && posted[i].wire == Wire(store[posted[i].art])
  }

  ghost predicate WiresOk(s: State)
  {
    && AllCarry(s.pool, s.main.arts)
    && PostedOk(s.main.posted, s.main.arts)
    && (s.io.Reporting? ==> s.io.art < |s.main.arts| && s.io.wire == Wire(s.main.arts[s.io.art]))
  }

  // ---- One connection -----------------------------------------------------------------------------------

  lemma HearsCarries(d: Conn, t: Task, line: string, conf: Conf, store: seq<Article>)
    requires d.pending == [] && d.Awaits(t) && Fits(d, t)
    requires t.AwaitPostReply? ==> d.article.Some? && d.article.value < |store|
    requires Sending(t) ==> d.article.Some? && d.article.value < |store| && d.sendParts == Wire(store[d.article.value])
    ensures Carries(d.Hears(t, line, conf, store), store)
  {
    match t {
      case AwaitWelcome =>
      case AwaitUserReply =>
      case AwaitPassReply =>
      case AwaitPostReply =>
      case AwaitArticleReply =>
      case AwaitStatReply =>
    }
  }

  lemma GoesCarries(d: Conn, t: Task, conf: Conf, store: seq<Article>)
    requires d.pending == [] && !d.Awaits(t) && !d.Calls(t) && Fits(d, t)
    requires Sending(t) ==> d.article.Some? && d.article.value < |store| && d.sendParts == Wire(store[d.article.value])
    ensures d.Runs(t) ==> Carries(d.Run(t), store)
    ensures !d.Runs(t) ==> Carries(d.Succeeds(t, conf), store)
  {
  }

  lemma FailsCarries(d: Conn, t: Task, store: seq<Article>)
    requires d.pending == [] && !d.Runs(t) && !d.Calls(t)
    ensures Carries(d.Fails(t), store)
  {
  }

  lemma CompleteCarries(k: Conn, ev: Event, conf: Conf, store: seq<Article>)
    requires Wf(k) && k.CanComplete(0, ev) && Carries(k, store)
    requires Held(k).Some? ==> Held(k).value < |store|
    ensures Carries(k.Complete(0, ev, conf, store), store)
  {
    var t, d := k.pending[0], k.Done(0);
    assert d.pending == [];
    if k.Runs(t) {
      GoesCarries(d, t, conf, store);
    } else if t.WritingQuit? {
    } else if ev.Ok? {
      GoesCarries(d.Note(Went), t, conf, store);
    } else if ev.Err? {
      FailsCarries(d.Receive(ev.arrived).Note(Failed), t, store);
    } else {
      var b, e := AfterRead(k, ev);
      HearsCarries(d.(readbuf := b[e..]).Note(Reply(b[..e])), t, TextOf(b[..e]), conf, store);
    }
  }

  // ---- The operations of the pool -----------------------------------------------------------------------

  lemma StartCarries(p: Pool, c: nat, cmd: Command, store: seq<Article>)
    requires AllCarry(p, store) && c < |p.conns| && Quiet(p.conns[c])
    ensures AllCarry(p.Start(c, cmd), store)
  {
  }

  lemma DispatchCarries(p: Pool, hand: Option<nat>, cmd: Command, store: seq<Article>)
    requires AllCarry(p, store) && PoolOk(p, hand)
    ensures AllCarry(p.DispatchOrQueue(cmd, false), store)
  {
    if p.ready != [] {
      var c := p.ready[0];
      assert c in p.ready && RoleOk(p, hand, c);
      StartCarries(p.Arrive(cmd).(ready := p.ready[1..], busy := [c] + p.busy), c, cmd, store);
    }
  }

  lemma {:induction false} HangupReadyCarries(p: Pool, store: seq<Article>)
    requires AllCarry(p, store) && PoolOk(p, None)
    ensures AllCarry(p.HangupReady(), store)
    decreases |p.ready|
  {
    if p.ready != [] {
      var c := p.ready[0];
      assert c in p.ready && RoleOk(p, None, c);
      HangupFirstKeeps(p);
      HangupReadyCarries(p.Hangup(c).(ready := p.ready[1..]), store);
    }
  }

  lemma BecomesReadyCarries(p: Pool, c: nat, store: seq<Article>)
    requires AllCarry(p, store) && PoolOk(p, Some(c)) && p.At(c).state == Authenticated
    ensures AllCarry(p.BecomesReady(c), store)
  {
    assert RoleOk(p, Some(c), c);
    if p.queue != [] {
      StartCarries(p.(queue := p.queue[1..]), c, p.queue[0], store);
    } else if !p.work {
      RequestsKeepWf(p.conns[c], 0, "");
      HandRetires(p, c, p.conns[c].AsyncGracefulDisconnect());
      HangupReadyCarries(p.(busy := Without(p.busy, c)).Hangup(c), store);
    }
  }

  lemma EnterCarries(p: Pool, c: nat, i: nat, store: seq<Article>)
    requires AllCarry(p, store) && PoolOk(p, None) && i < |p.At(c).pending| && p.At(c).Calls(p.At(c).pending[i])
    ensures AllCarry(p.Enter(c, i), store) && Quiet(p.Enter(c, i).At(c))
    ensures Sending(p.At(c).pending[i]) ==>
      var t := p.At(c).pending[i];
      t.art.Some? && t.art.value < |store| && p.Enter(c, i).At(c).sendParts == Wire(store[t.art.value])
  {
    EnterKeeps(p, c, i);
    assert Carries(p.conns[c], store) && RoleOk(p.Enter(c, i), Some(c), c);
  }

  // ---- Nobody answers for the article that is changed ----------------------------------------------------

  lemma {:induction false} NobodyHolds(ks: seq<Conn>, a: nat, c: nat)
    requires Sum(Holding(a), ks) == 0 && c < |ks|
    ensures Held(ks[c]) != Some(a)
  {
    assert Holding(a)(ks[0]) == 0;
    if c > 0 {
      NobodyHolds(ks[1..], a, c - 1);
    }
  }

  lemma {:induction false} NotPosted(posted: seq<Posted>, a: nat, i: nat)
    requires InPosted(posted, a) == 0 && i < |posted|
    ensures posted[i].art != a
  {
    if i > 0 {
      NotPosted(posted[1..], a, i - 1);
    }
  }

  /** A change of the store at an article that nobody holds. */
  lemma StoreChanges(p: Pool, posted: seq<Posted>, store: seq<Article>, store': seq<Article>, a: nat)
    requires AllCarry(p, store) && PostedOk(posted, store)
    requires |store'| == |store| && forall b :: 0 <= b < |store| && b != a ==> store'[b] == store[b]
    requires InPool(p, a) == 0 && InPosted(posted, a) == 0
    ensures AllCarry(p, store') && PostedOk(posted, store')
  {
    forall c | 0 <= c < |p.conns|
      ensures Carries(p.conns[c], store')
    {
      NobodyHolds(p.conns, a, c);
      assert Carries(p.conns[c], store);
    }
    forall i | 0 <= i < |posted|
      ensures posted[i].art < |store'| && posted[i].wire == Wire(store'[posted[i].art])
    {
      NotPosted(posted, a, i);
    }
  }

  lemma StoreGrows(p: Pool, posted: seq<Posted>, store: seq<Article>, x: Article)
    requires AllCarry(p, store) && PostedOk(posted, store)
    ensures AllCarry(p, store + [x]) && PostedOk(posted, store + [x])
  {
    forall c | 0 <= c < |p.conns|
      ensures Carries(p.conns[c], store + [x])
    {
      assert Carries(p.conns[c], store);
    }
  }

  lemma PostFailedStore(m: Main, a: nat, d: Draw, domain: string)
    requires Judge(m, a) != Crash
    ensures var m' := PostFailed(m, a, d, domain);
            && |m'.arts| == |m.arts| && m'.posted == m.posted
            && forall b :: 0 <= b < |m.arts| && b != a ==> m'.arts[b] == m.arts[b]
  {
  }

  lemma ResubmitWires(cfg: Config, s: State, art: nat, d: Draw, after: Handler)
    requires AllCarry(s.pool, s.main.arts) && PostedOk(s.main.posted, s.main.arts) && PoolOk(s.pool, HandOf(after))
    requires InPool(s.pool, art) == 0 && InPosted(s.main.posted, art) == 0
    requires after.Idle? || after.BecomingReady?
    requires s.io.Idle?
    ensures WiresOk(Resubmit(cfg, s, art, d, after))
  {
    if Judge(s.main, art) != Crash {
      var m' := PostFailed(s.main, art, d, cfg.domain);
      PostFailedStore(s.main, art, d, cfg.domain);
      StoreChanges(s.pool, s.main.posted, s.main.arts, m'.arts, art);
      DispatchCarries(s.pool, HandOf(after), PostCmd(art), m'.arts);
    }
  }

  lemma PostFinishedWires(cfg: Config, s: State, c: nat, art: nat, r: PostResult, d: Draw)
    requires WiresOk(s) && s.io.Idle? && PoolOk(s.pool, Some(c)) && s.pool.At(c).state == Authenticated
    requires InPool(s.pool, art) == 0 && InPosted(s.main.posted, art) == 0
    requires r.PostSuccess? ==> art < |s.main.arts| && s.pool.At(c).sendParts == Wire(s.main.arts[art])
    ensures WiresOk(OnPostFinished(cfg, s, c, art, r, d))
  {
    assert RoleOk(s.pool, Some(c), c);
    match r {
      case PostingNotPermitted => CloseCarries(s.pool, c, s.main.arts);
      case PostFailure => ResubmitWires(cfg, s, art, d, BecomingReady(c));
      case PostConnectionError =>
        CloseCarries(s.pool, c, s.main.arts);
        ReconnectKeeps(s.pool, c);
        ReconnectCounts(s.pool, c, art);
        ResubmitWires(cfg, s.(pool := s.pool.Reconnect(c)), art, d, Idle);
      case PostSuccess => BecomesReadyCarries(s.pool, c, s.main.arts);
    }
  }

  lemma CloseCarries(p: Pool, c: nat, store: seq<Article>)
    requires AllCarry(p, store) && c < |p.conns| && p.conns[c].pending == []
    ensures AllCarry(p.Reconnect(c), store) && AllCarry(p.With(c, p.At(c).Close()), store)
  {
  }

  lemma PostDoneWires(cfg: Config, s: State, step: Step)
    requires Joint(cfg, s) && WiresOk(s) && Enabled(cfg, s, step) && step.PostDone?
    requires Tally(s, s.pool.At(step.conn).pending[step.i].art.value)
    ensures WiresOk(Next(cfg, s, step))
  {
    var c, t := step.conn, s.pool.At(step.conn).pending[step.i];
    EnterKeeps(s.pool, c, step.i);
    EnterCarries(s.pool, c, step.i, s.main.arts);
    PendingIsBuilt(cfg, s, c, step.i);
    PostFinishedWires(cfg, s.(pool := s.pool.Enter(c, step.i)), c, t.art.value, t.post, step.draw);
  }

  lemma StatFailedCarries(p: Pool, c: nat, id: string, recheck: bool, store: seq<Article>)
    requires AllCarry(p, store) && PoolOk(p, Some(c))
    ensures AllCarry(p.StatFailed(c, id, recheck), store)
  {
    var cmd := StatCmd(id);
    DispatchCarries(p, Some(c), cmd, store);
    assert RoleOk(p, Some(c), c);
    DispatchKeepsHand(p, c, cmd);
    CloseCarries(if recheck then p.DispatchOrQueue(cmd, false) else p.Push(cmd, false), c, store);
  }

  lemma StatDoneWires(cfg: Config, s: State, step: Step)
    requires Joint(cfg, s) && WiresOk(s) && Enabled(cfg, s, step) && step.StatDone?
    ensures WiresOk(Next(cfg, s, step))
  {
    var c, t := step.conn, s.pool.At(step.conn).pending[step.i];
    EnterKeeps(s.pool, c, step.i);
    EnterCarries(s.pool, c, step.i, s.main.arts);
    var p := s.pool.Enter(c, step.i);
    if t.stat.StatConnectionError? {
      StatFailedCarries(p, c, t.id, cfg.recheck, s.main.arts);
    } else {
      BecomesReadyCarries(p, c, s.main.arts);
    }
  }

  lemma SubmitWires(cfg: Config, s: State)
    requires Joint(cfg, s) && WiresOk(s) && Enabled(cfg, s, Submit)
    ensures WiresOk(SubmitJob(cfg, s))
  {
    var s1, cmd := JobOf(cfg, s);
    if s1.main.arts != s.main.arts {
      StoreGrows(s.pool, s.main.posted, s.main.arts, s1.main.arts[|s.main.arts|]);
    }
    DispatchCarries(s1.pool, HandOf(s1.io), cmd, s1.main.arts);
  }

  lemma ProgressWires(cfg: Config, s: State, step: Step)
    requires Joint(cfg, s) && WiresOk(s) && Enabled(cfg, s, step) && step.Progress?
    requires forall a :: Tally(s, a)
    ensures WiresOk(Next(cfg, s, step))
  {
    var c := step.conn;
    var k := s.pool.conns[c];
    ProgressKeeps(s.pool, c, step.i, step.ev, cfg.confs[c], s.main.arts);
    assert RoleOk(s.pool, None, c) && Carries(k, s.main.arts);
    if Held(k).Some? {
      assert Tally(s, Held(k).value);
      HeldIsBuilt(s.pool.conns, Held(k).value, c);
    }
    CompleteCarries(k, step.ev, cfg.confs[c], s.main.arts);
  }

  lemma {:induction false} HeldIsBuilt(ks: seq<Conn>, a: nat, c: nat)
    requires c < |ks| && Held(ks[c]) == Some(a)
    ensures Sum(Holding(a), ks) > 0
  {
    if c > 0 {
      HeldIsBuilt(ks[1..], a, c - 1);
    } else {
      assert Holding(a)(ks[0]) == 1;
    }
  }

  lemma WiresNext(cfg: Config, s: State, step: Step)
    requires Joint(cfg, s) && WiresOk(s) && Enabled(cfg, s, step)
    requires forall a :: Tally(s, a)
    ensures WiresOk(Next(cfg, s, step))
  {
    match step {
      case Submit => SubmitWires(cfg, s);
      case Wake => DispatchCarries(s.pool, HandOf(s.io), s.producer.blocked.value, s.main.arts);
      case Stop =>
      case Progress(_, _, _) => ProgressWires(cfg, s, step);
      case Connected(c, i) =>
        EnterKeeps(s.pool, c, i);
        EnterCarries(s.pool, c, i, s.main.arts);
        if s.pool.At(c).pending[i].connect.ConnectSuccess? {
          BecomesReadyCarries(s.pool.Enter(c, i), c, s.main.arts);
        }
      case PostDone(_, _, _) =>
        assert Tally(s, s.pool.At(step.conn).pending[step.i].art.value);
        PostDoneWires(cfg, s, step);
      case StatDone(_, _) => StatDoneWires(cfg, s, step);
      case Resume =>
        match s.io {
          case Dispatching(a) => DispatchCarries(s.pool, None, PostCmd(a), s.main.arts);
          case BecomingReady(c) => BecomesReadyCarries(s.pool, c, s.main.arts);
          case Reporting(_, _) =>
        }
      case Exit =>
    }
  }

  /** In every reachable state, everything reported posted was sent as the article now is: same id, same
      header, same payload. */
  lemma {:induction false} WiresAlways(cfg: Config, run: seq<Step>)
    requires Legal(cfg, run)
    ensures WiresOk(After(cfg, run))
    decreases |run|
  {
    if run == [] {
      assert forall c :: 0 <= c < |Init(cfg).pool.conns| ==> Init(cfg).pool.conns[c].pending == [RunConnect];
    } else {
      var before := run[..|run| - 1];
      WiresAlways(cfg, before);
      JointAlways(cfg, before);
      forall a
        ensures Tally(After(cfg, before), a)
      {
        TallyAlways(cfg, before, a);
      }
      WiresNext(cfg, After(cfg, before), run[|run| - 1]);
    }
  }
}
