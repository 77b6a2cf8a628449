/** The whole pool, every connection facing a dummy server of its own, in every interleaving without network
    errors: what the servers have stored when the program exits. */
module NetTheory {
  import opened Text
  import opened Message
  import opened ConnModel
  import opened ConnTheory
  import opened PoolModel
  import opened PoolTheory
  import opened PoolCounts
  import opened RunTheory
  import opened TallyTheory
  import opened BudgetTheory
  import opened ReachTheory
  import opened WireTheory
  import opened IdTheory
  import opened Submission
  import opened EndToEnd
  import opened PeerTheory
  import DummyServer
  import L = Lockstep

  /** The server behind a connection, and how far each side has read. */
  datatype Peer = Peer(server: DummyServer.Session, consumed: nat, received: nat)

  datatype Net = Net(s: State, peers: seq<Peer>)

  datatype Deed = Pooled(step: Step) | Shakes(conn: nat) | Reads(conn: nat)

  /** The articles a connection was told to post, in order. */
  function PostsOf(ops: seq<Op>): seq<nat>
  {
    if ops == [] then []
    else PostsOf(ops[..|ops| - 1]) + (if ops[|ops| - 1].kind.Post? then [ops[|ops| - 1].kind.ref] else [])
  }

  function LinkOf(k: Conn, p: Peer): L.Link
  {
    L.Link(k, p.server, p.consumed, p.received, PostsOf(k.hist.ops))
  }

  /** The articles as submitted: no post fails, so none is ever renamed. */
  function Store(cfg: Config): seq<Article>
  {
    seq(|cfg.posts|, i requires 0 <= i < |cfg.posts| => cfg.posts[i].article)
  }

  predicate CanDo(cfg: Config, n: Net, d: Deed)
  {
    |n.peers| == |n.s.pool.conns| &&
    match d
    case Pooled(step) =>
      && Enabled(cfg, n.s, step)
      && (step.Progress? ==>
            L.Can(Store(cfg), LinkOf(n.s.pool.conns[step.conn], n.peers[step.conn]), L.Completes(step.ev)))
    case Shakes(c) => c < |n.peers| && L.Can(Store(cfg), LinkOf(n.s.pool.conns[c], n.peers[c]), L.Shakes)
    case Reads(c) => c < |n.peers| && L.Can(Store(cfg), LinkOf(n.s.pool.conns[c], n.peers[c]), L.Reads)
  }

  function Received(p: Peer, ev: Event): Peer
  {
    if ev.Data? then p.(received := p.received + |ev.arrived|) else p
  }

  /** The server of connection c moves. */
  function ServerMoves(cfg: Config, n: Net, c: nat, m: L.Move): Net
    requires c < |n.peers| == |n.s.pool.conns| && c < |cfg.confs| && L.Can(Store(cfg), LinkOf(n.s.pool.conns[c], n.peers[c]), m)
  {
    var l := L.Do(cfg.confs[c], Store(cfg), LinkOf(n.s.pool.conns[c], n.peers[c]), m);
    n.(peers := n.peers[c := Peer(l.server, l.consumed, l.received)])
  }

  function DoIt(cfg: Config, n: Net, d: Deed): Net
    requires CanDo(cfg, n, d) && |n.s.pool.conns| == |cfg.confs|
  {
    match d
    case Pooled(step) =>
      Net(Next(cfg, n.s, step),
          if step.Progress? then n.peers[step.conn := Received(n.peers[step.conn], step.ev)] else n.peers)
    case Shakes(c) => ServerMoves(cfg, n, c, L.Shakes)
    case Reads(c) => ServerMoves(cfg, n, c, L.Reads)
  }

  function FirstNet(cfg: Config): Net
  {
    Net(Init(cfg), seq(|cfg.confs|, i => Peer(DummyServer.ACCEPTED, 0, 0)))
  }

  // ---- What every connection tells its server ---------------------------------------------------------------

  predicate SameKinds(a: seq<Op>, b: seq<Op>)
  {
    |a| == |b| && forall i :: 0 <= i < |a| ==> a[i].kind == b[i].kind
  }

  lemma {:induction false} PostsOfKinds(a: seq<Op>, b: seq<Op>)
    requires SameKinds(a, b)
    ensures PostsOf(a) == PostsOf(b)
  {
    if a != [] {
      PostsOfKinds(a[..|a| - 1], b[..|b| - 1]);
    }
  }

  lemma HearsKinds(k: Conn, t: Task, line: string, conf: Conf, store: seq<Article>)
    requires k.Awaits(t)
    ensures SameKinds(k.hist.ops, k.Hears(t, line, conf, store).hist.ops)
  {
  }

  lemma CompleteKinds(k: Conn, ev: Event, conf: Conf, store: seq<Article>)
    requires k.CanComplete(0, ev) && !ev.Err?
    ensures SameKinds(k.hist.ops, k.Complete(0, ev, conf, store).hist.ops)
  {
    var t, d := k.pending[0], k.Done(0);
    if !k.Runs(t) && ev.Data? {
      var b := d.Receive(ev.arrived).readbuf;
      assert TextOf(b) == TextOf(k.readbuf) + ev.arrived;
      var e := LineEnd(TextOf(b));
      HearsKinds(d.(readbuf := b[e..]).Note(Reply(b[..e])), t, TextOf(b[..e]), conf, store);
    }
  }

  lemma HearsStore(k: Conn, t: Task, line: string, conf: Conf, arts: seq<Article>, store: seq<Article>)
    requires k.Awaits(t) && arts <= store && (k.article.Some? ==> k.article.value < |arts|)
    ensures k.Hears(t, line, conf, arts) == k.Hears(t, line, conf, store)
  {
    assert WireOf(arts, k.article) == WireOf(store, k.article);
  }

  /** A longer store makes no difference to a connection whose article is in the shorter one. */
  lemma CompleteStore(k: Conn, ev: Event, conf: Conf, arts: seq<Article>, store: seq<Article>)
    requires k.CanComplete(0, ev) && arts <= store && (k.article.Some? ==> k.article.value < |arts|)
    ensures k.Complete(0, ev, conf, arts) == k.Complete(0, ev, conf, store)
  {
    var t, d := k.pending[0], k.Done(0);
    if !k.Runs(t) && ev.Data? {
      var b := d.Receive(ev.arrived).readbuf;
      assert TextOf(b) == TextOf(k.readbuf) + ev.arrived;
      var e := LineEnd(TextOf(b));
      HearsStore(d.(readbuf := b[e..]).Note(Reply(b[..e])), t, TextOf(b[..e]), conf, arts, store);
    }
  }

  function Tells(k: Conn, a: nat): nat
  {
    InList(PostsOf(k.hist.ops), a)
  }

  function Telling(a: nat): Conn -> nat
  {
    (k: Conn) => Tells(k, a)
  }

  lemma AppendTells(ops: seq<Op>, op: Op)
    ensures PostsOf(ops + [op]) == PostsOf(ops) + (if op.kind.Post? then [op.kind.ref] else [])
  {
    assert (ops + [op])[..|ops|] == ops;
  }

  // ---- The invariant ------------------------------------------------------------------------------------------

  /** Every connection is in step with its server. */
  ghost predicate AllInStep(cfg: Config, p: Pool, peers: seq<Peer>)
  {
    && |p.conns| == |peers| == |cfg.confs|
    && forall c :: 0 <= c < |p.conns| ==> L.InStep(cfg.confs[c], Store(cfg), LinkOf(p.conns[c], peers[c]))
  }

  /** As often as article a was started it was told to some connection. */
  ghost predicate Told(p: Pool, a: nat)
  {
    Sum(Telling(a), p.conns) == InCommands(p.started, a)
  }

  lemma OneInStep(cfg: Config, p: Pool, peers: seq<Peer>, c: nat, k: Conn)
    requires AllInStep(cfg, p, peers) && c < |p.conns| && L.InStep(cfg.confs[c], Store(cfg), LinkOf(k, peers[c]))
    ensures AllInStep(cfg, p.With(c, k), peers)
  {
  }

  lemma OneTold(p: Pool, c: nat, k: Conn, a: nat)
    requires Told(p, a) && c < |p.conns| && PostsOf(k.hist.ops) == PostsOf(p.conns[c].hist.ops)
    ensures Told(p.With(c, k), a)
  {
    SumUpdate(Telling(a), p.conns, c, k);
  }

  /** Every command is the POST of an article that exists. */
  ghost predicate Existing(cfg: Config, cmd: Command)
  {
    cmd.PostCmd? && cmd.art < |cfg.posts|
  }

  lemma StartInStep(cfg: Config, p: Pool, peers: seq<Peer>, c: nat, cmd: Command, a: nat)
    requires AllInStep(cfg, p, peers) && c < |p.conns| && Quiet(p.conns[c]) && p.conns[c].state == Authenticated
    requires Existing(cfg, cmd) && Told(p, a)
    ensures AllInStep(cfg, p.Start(c, cmd), peers) && Told(p.Start(c, cmd), a)
  {
    var k, l := p.conns[c], LinkOf(p.conns[c], peers[c]);
    var k' := k.AsyncPost(cmd.art);
    L.PostsKeeps(cfg.confs[c], Store(cfg), l, cmd.art);
    AppendTells(k.hist.ops, Op(Post(cmd.art), k.hist.session, [], None));
    assert LinkOf(k', peers[c]) == L.Do(cfg.confs[c], Store(cfg), l, L.Posts(cmd.art));
    OneInStep(cfg, p, peers, c, k');
    SumUpdate(Telling(a), p.conns, c, k');
    InListAppend(PostsOf(k.hist.ops), cmd.art, a);
    InCommandsAppend(p.started, [cmd], a);
    InOneCommand(cmd, a);
  }

  lemma DispatchInStep(cfg: Config, p: Pool, peers: seq<Peer>, hand: Option<nat>, cmd: Command, a: nat)
    requires AllInStep(cfg, p, peers) && PoolOk(p, hand) && Existing(cfg, cmd) && Told(p, a)
    ensures AllInStep(cfg, p.DispatchOrQueue(cmd, false), peers) && Told(p.DispatchOrQueue(cmd, false), a)
    ensures AllInStep(cfg, p.Push(cmd, false), peers) && Told(p.Push(cmd, false), a)
  {
    if p.ready != [] {
      var c := p.ready[0];
      assert c in p.ready && RoleOk(p, hand, c);
      StartInStep(cfg, p.Arrive(cmd).(ready := p.ready[1..], busy := [c] + p.busy), peers, c, cmd, a);
    }
  }

  lemma HangupInStep(cfg: Config, p: Pool, peers: seq<Peer>, c: nat, a: nat)
    requires AllInStep(cfg, p, peers) && c < |p.conns| && Quiet(p.conns[c]) && p.conns[c].state == Authenticated && Told(p, a)
    ensures AllInStep(cfg, p.Hangup(c), peers) && Told(p.Hangup(c), a)
  {
    var k, l := p.conns[c], LinkOf(p.conns[c], peers[c]);
    L.QuitsKeeps(cfg.confs[c], Store(cfg), l);
    assert LinkOf(k.AsyncGracefulDisconnect(), peers[c]) == L.Do(cfg.confs[c], Store(cfg), l, L.Quits);
    OneInStep(cfg, p, peers, c, k.AsyncGracefulDisconnect());
    OneTold(p, c, k.AsyncGracefulDisconnect(), a);
  }

  lemma {:induction false} HangupReadyInStep(cfg: Config, p: Pool, peers: seq<Peer>, a: nat)
    requires AllInStep(cfg, p, peers) && PoolOk(p, None) && Told(p, a)
    ensures AllInStep(cfg, p.HangupReady(), peers) && Told(p.HangupReady(), a)
    decreases |p.ready|
  {
    if p.ready != [] {
      var c := p.ready[0];
      assert c in p.ready && RoleOk(p, None, c);
      HangupInStep(cfg, p, peers, c, a);
      HangupFirstKeeps(p);
      HangupReadyInStep(cfg, p.Hangup(c).(ready := p.ready[1..]), peers, a);
    }
  }

  lemma BecomesReadyInStep(cfg: Config, p: Pool, peers: seq<Peer>, c: nat, a: nat)
    requires AllInStep(cfg, p, peers) && PoolOk(p, Some(c)) && p.At(c).state == Authenticated && Told(p, a)
    requires p.queue != [] ==> Existing(cfg, p.queue[0])
    ensures AllInStep(cfg, p.BecomesReady(c), peers) && Told(p.BecomesReady(c), a)
  {
    assert RoleOk(p, Some(c), c);
    if p.queue != [] {
      StartInStep(cfg, p.(queue := p.queue[1..]), peers, c, p.queue[0], a);
    } else if !p.work {
      var p1 := p.(busy := Without(p.busy, c));
      HangupInStep(cfg, p1, peers, c, a);
      RequestsKeepWf(p.conns[c], 0, "");
      HandRetires(p, c, p.conns[c].AsyncGracefulDisconnect());
      HangupReadyInStep(cfg, p1.Hangup(c), peers, a);
    }
  }

  lemma EnterInStep(cfg: Config, p: Pool, peers: seq<Peer>, c: nat, i: nat, a: nat)
    requires AllInStep(cfg, p, peers) && PoolOk(p, None) && i < |p.At(c).pending| && p.At(c).Calls(p.At(c).pending[i]) && Told(p, a)
    ensures AllInStep(cfg, p.Enter(c, i), peers) && Told(p.Enter(c, i), a)
    ensures var t := p.At(c).pending[i];
            (t.ConnectDone? ==> t.connect.ConnectSuccess?) && (t.PostDone? ==> t.post.PostSuccess?)
  {
    EnterKeeps(p, c, i);
    var k, l := p.conns[c], LinkOf(p.conns[c], peers[c]);
    assert L.InStep(cfg.confs[c], Store(cfg), l) && l.Now() == Some(k.pending[0]);
    L.HandlesKeeps(cfg.confs[c], Store(cfg), l);
    assert LinkOf(k.Deliver(0), peers[c]) == L.Do(cfg.confs[c], Store(cfg), l, L.Handles);
    OneInStep(cfg, p, peers, c, k.Deliver(0));
    OneTold(p, c, k.Deliver(0), a);
  }

  // ---- The steps ------------------------------------------------------------------------------------------------

  /** Nothing fails, nothing is refused, and the articles stay as submitted. */
  ghost predicate Smooth(cfg: Config, n: Net)
  {
    && AllInStep(cfg, n.s.pool, n.peers)
    && (n.s.io.Idle? || n.s.io.Reporting?)
    && n.s.main.failed == [] && n.s.main.refused == []
    && n.s.main.arts <= Store(cfg)
  }

  /** What every server and every article needs: see Lockstep. */
  ghost predicate Peaceful(cfg: Config)
  {
    && cfg.stats == []
    && (forall c :: 0 <= c < |cfg.confs| ==> L.Fit(cfg.confs[c]))
    && L.AllPostable(Store(cfg))
  }

  /** What is known of every state of the pool. */
  ghost predicate Known(cfg: Config, s: State)
  {
    Joint(cfg, s) && PostOnly(s) && ProducerOk(cfg, s) && forall a :: Tally(s, a)
  }

  lemma CommandExists(cfg: Config, s: State, cmd: Command)
    requires Known(cfg, s) && cmd.PostCmd? && InProducer(s.producer, cmd.art) + InCommands(s.pool.queue, cmd.art) > 0
    ensures Existing(cfg, cmd)
  {
    assert Tally(s, cmd.art);
  }

  lemma QueueExists(cfg: Config, s: State)
    requires Known(cfg, s) && s.pool.queue != []
    ensures Existing(cfg, s.pool.queue[0])
  {
    assert s.pool.queue[0].PostCmd?;
    CommandExists(cfg, s, s.pool.queue[0]);
  }

  lemma ServerKeeps(cfg: Config, n: Net, c: nat, m: L.Move)
    requires Peaceful(cfg) && Smooth(cfg, n) && c < |n.peers| && (m.Shakes? || m.Reads?)
    requires L.Can(Store(cfg), LinkOf(n.s.pool.conns[c], n.peers[c]), m)
    ensures Smooth(cfg, ServerMoves(cfg, n, c, m))
  {
    var l := LinkOf(n.s.pool.conns[c], n.peers[c]);
    assert L.InStep(cfg.confs[c], Store(cfg), l) && L.Fit(cfg.confs[c]);
    L.MoveKeeps(cfg.confs[c], Store(cfg), l, m);
    var l' := L.Do(cfg.confs[c], Store(cfg), l, m);
    assert LinkOf(n.s.pool.conns[c], Peer(l'.server, l'.consumed, l'.received)) == l';
  }

  lemma ProgressSmooth(cfg: Config, n: Net, step: Step, a: nat)
    requires Peaceful(cfg) && Smooth(cfg, n) && Known(cfg, n.s) && CanDo(cfg, n, Pooled(step)) && step.Progress? && Told(n.s.pool, a)
    ensures Smooth(cfg, DoIt(cfg, n, Pooled(step))) && Told(DoIt(cfg, n, Pooled(step)).s.pool, a)
  {
    var c, ev := step.conn, step.ev;
    var k, l := n.s.pool.conns[c], LinkOf(n.s.pool.conns[c], n.peers[c]);
    ProgressKeeps(n.s.pool, c, step.i, ev, cfg.confs[c], n.s.main.arts);
    var k' := k.Complete(0, ev, cfg.confs[c], Store(cfg));
    HeldExists(cfg, n.s, c);
    CompleteStore(k, ev, cfg.confs[c], n.s.main.arts, Store(cfg));
    assert L.InStep(cfg.confs[c], Store(cfg), l) && L.Fit(cfg.confs[c]);
    L.MoveKeeps(cfg.confs[c], Store(cfg), l, L.Completes(ev));
    CompleteKinds(k, ev, cfg.confs[c], Store(cfg));
    PostsOfKinds(k.hist.ops, k'.hist.ops);
    assert LinkOf(k', Received(n.peers[c], ev)) == L.Do(cfg.confs[c], Store(cfg), l, L.Completes(ev));
    OneTold(n.s.pool, c, k', a);
  }

  lemma HeldExists(cfg: Config, s: State, c: nat)
    requires Known(cfg, s) && c < |s.pool.conns|
    ensures s.pool.conns[c].article.Some? ==> s.pool.conns[c].article.value < |s.main.arts|
  {
    var k := s.pool.conns[c];
    if k.article.Some? {
      assert Tally(s, k.article.value);
      HeldIsBuilt(s.pool.conns, k.article.value, c);
    }
  }

  /** The next article is the next one of the store. */
  lemma NextIsStored(cfg: Config, arts: seq<Article>)
    requires arts <= Store(cfg) && |arts| < |cfg.posts|
    ensures arts + [cfg.posts[|arts|].article] <= Store(cfg)
  {
    assert Store(cfg)[|arts|] == cfg.posts[|arts|].article;
  }

  lemma SubmitSmooth(cfg: Config, n: Net, a: nat)
    requires Peaceful(cfg) && Smooth(cfg, n) && Known(cfg, n.s) && CanDo(cfg, n, Pooled(Submit)) && Told(n.s.pool, a)
    ensures Smooth(cfg, DoIt(cfg, n, Pooled(Submit))) && Told(DoIt(cfg, n, Pooled(Submit)).s.pool, a)
  {
    var i := |n.s.main.arts|;
    assert i == n.s.producer.next < |cfg.posts|;
    NextIsStored(cfg, n.s.main.arts);
    DispatchInStep(cfg, n.s.pool, n.peers, HandOf(n.s.io), PostCmd(i), a);
    SubmitChanges(cfg, n.s);
  }

  lemma SubmitChanges(cfg: Config, s: State)
    requires Enabled(cfg, s, Submit) && s.producer.next == |s.main.arts| < |cfg.posts|
    ensures var s' := Next(cfg, s, Submit);
            && (s'.pool == s.pool || s'.pool == s.pool.DispatchOrQueue(PostCmd(|s.main.arts|), false))
            && s'.io == s.io && s'.main == s.main.(arts := s.main.arts + [cfg.posts[|s.main.arts|].article])
  {
  }

  lemma WakeSmooth(cfg: Config, n: Net, a: nat)
    requires Smooth(cfg, n) && Known(cfg, n.s) && CanDo(cfg, n, Pooled(Wake)) && Told(n.s.pool, a)
    ensures Smooth(cfg, DoIt(cfg, n, Pooled(Wake))) && Told(DoIt(cfg, n, Pooled(Wake)).s.pool, a)
  {
    var cmd := n.s.producer.blocked.value;
    CommandExists(cfg, n.s, cmd);
    DispatchInStep(cfg, n.s.pool, n.peers, HandOf(n.s.io), cmd, a);
  }

  /** A handler that is called has good news. */
  lemma HandlerSmooth(cfg: Config, n: Net, step: Step, a: nat)
    requires Peaceful(cfg) && Smooth(cfg, n) && Known(cfg, n.s) && CanDo(cfg, n, Pooled(step)) && Told(n.s.pool, a)
    requires step.Connected? || step.PostDone?
    ensures Smooth(cfg, DoIt(cfg, n, Pooled(step))) && Told(DoIt(cfg, n, Pooled(step)).s.pool, a)
  {
    var c, p := step.conn, n.s.pool;
    EnterKeeps(p, c, step.i);
    EnterInStep(cfg, p, n.peers, c, step.i, a);
    if p.queue != [] {
      QueueExists(cfg, n.s);
    }
    BecomesReadyInStep(cfg, p.Enter(c, step.i), n.peers, c, a);
  }

  lemma DeedSmooth(cfg: Config, n: Net, d: Deed, a: nat)
    requires Peaceful(cfg) && Smooth(cfg, n) && Known(cfg, n.s) && CanDo(cfg, n, d) && Told(n.s.pool, a)
    ensures Smooth(cfg, DoIt(cfg, n, d)) && Told(DoIt(cfg, n, d).s.pool, a)
  {
    match d {
      case Shakes(c) => ServerKeeps(cfg, n, c, L.Shakes);
      case Reads(c) => ServerKeeps(cfg, n, c, L.Reads);
      case Pooled(step) =>
        PostOnlyNext(cfg, n.s, step);
        match step {
          case Submit => SubmitSmooth(cfg, n, a);
          case Wake => WakeSmooth(cfg, n, a);
          case Progress(_, _, _) => ProgressSmooth(cfg, n, step, a);
          case Connected(_, _) => HandlerSmooth(cfg, n, step, a);
          case PostDone(_, _, _) => HandlerSmooth(cfg, n, step, a);
          case _ =>
        }
    }
  }

  // ---- Runs -----------------------------------------------------------------------------------------------------

  predicate LegalDeeds(cfg: Config, deeds: seq<Deed>)
    decreases |deeds|, 0
  {
    deeds == [] ||
    var before := deeds[..|deeds| - 1];
    LegalDeeds(cfg, before) && CanDo(cfg, AfterDeeds(cfg, before), deeds[|deeds| - 1])
    && |AfterDeeds(cfg, before).s.pool.conns| == |cfg.confs|
  }

  function AfterDeeds(cfg: Config, deeds: seq<Deed>): Net
    requires LegalDeeds(cfg, deeds)
    decreases |deeds|, 1
  {
    if deeds == [] then FirstNet(cfg)
    else
      var before := deeds[..|deeds| - 1];
      DoIt(cfg, AfterDeeds(cfg, before), deeds[|deeds| - 1])
  }

  /** The steps of the pool alone. */
  function PoolSteps(deeds: seq<Deed>): seq<Step>
  {
    if deeds == [] then []
    else
      var d := deeds[|deeds| - 1];
      PoolSteps(deeds[..|deeds| - 1]) + (if d.Pooled? then [d.step] else [])
  }

  /** They are a run of the pool: everything known of its runs holds here. */
  lemma {:induction false} PoolRuns(cfg: Config, deeds: seq<Deed>)
    requires LegalDeeds(cfg, deeds)
    ensures Legal(cfg, PoolSteps(deeds)) && After(cfg, PoolSteps(deeds)) == AfterDeeds(cfg, deeds).s
    decreases |deeds|
  {
    if deeds != [] {
      var before, d := deeds[..|deeds| - 1], deeds[|deeds| - 1];
      PoolRuns(cfg, before);
      if d.Pooled? {
        assert PoolSteps(deeds)[..|PoolSteps(deeds)| - 1] == PoolSteps(before);
      } else {
        assert PoolSteps(deeds) == PoolSteps(before);
      }
    }
  }

  lemma {:induction false} KnownAlways(cfg: Config, run: seq<Step>)
    requires Legal(cfg, run) && cfg.stats == []
    ensures Known(cfg, After(cfg, run))
  {
    JointAlways(cfg, run);
    MeasureAlong(cfg, run);
    ProducerAlways(cfg, run);
    AllTallied(cfg, run);
  }

  lemma StartSmooth(cfg: Config, a: nat)
    ensures Smooth(cfg, FirstNet(cfg)) && Told(FirstNet(cfg).s.pool, a)
  {
    var n := FirstNet(cfg);
    forall c | 0 <= c < |cfg.confs|
      ensures L.InStep(cfg.confs[c], Store(cfg), LinkOf(n.s.pool.conns[c], n.peers[c]))
    {
      FreshInStep(cfg.confs[c], Store(cfg));
    }
    NobodyTells(n.s.pool.conns, a);
  }

  lemma FreshInStep(conf: Conf, store: seq<Article>)
    ensures L.InStep(conf, store, LinkOf(FRESH.AsyncConnect(), Peer(DummyServer.ACCEPTED, 0, 0)))
  {
    AppendTells([], Op(Connect, 1, [], None));
    assert FRESH.AsyncConnect().hist.ops == [] + [Op(Connect, 1, [], None)];
    assert LinkOf(FRESH.AsyncConnect(), Peer(DummyServer.ACCEPTED, 0, 0)) == L.DIALED;
    assert L.DIALED.client.pending == [RunConnect];
  }

  lemma {:induction false} NobodyTells(ks: seq<Conn>, a: nat)
    requires forall c :: 0 <= c < |ks| ==> ks[c] == FRESH.AsyncConnect()
    ensures Sum(Telling(a), ks) == 0
  {
    if ks != [] {
      AppendTells([], Op(Connect, 1, [], None));
      NobodyTells(ks[1..], a);
    }
  }

  lemma {:induction false} SmoothAlways(cfg: Config, deeds: seq<Deed>, a: nat)
    requires Peaceful(cfg) && LegalDeeds(cfg, deeds)
    ensures Smooth(cfg, AfterDeeds(cfg, deeds)) && Told(AfterDeeds(cfg, deeds).s.pool, a)
    decreases |deeds|
  {
    if deeds == [] {
      StartSmooth(cfg, a);
    } else {
      var before := deeds[..|deeds| - 1];
      SmoothAlways(cfg, before, a);
      PoolRuns(cfg, before);
      KnownAlways(cfg, PoolSteps(before));
      DeedSmooth(cfg, AfterDeeds(cfg, before), deeds[|deeds| - 1], a);
    }
  }

  /** In every reachable state no server has reported a violation, and server c has stored exactly the articles
      that connection c was told to post, in order, but for the one under way. */
  lemma {:induction false} ServersAlways(cfg: Config, deeds: seq<Deed>, c: nat)
    requires Peaceful(cfg) && LegalDeeds(cfg, deeds) && c < |cfg.confs|
    ensures var n := AfterDeeds(cfg, deeds);
            && c < |n.peers| == |n.s.pool.conns|
            && var stored, told := n.peers[c].server.stored, PostsOf(n.s.pool.conns[c].hist.ops);
               && !n.peers[c].server.violated
               && |told| - 1 <= |stored| <= |told| && stored == L.WiresOf(Store(cfg), told[..|stored|])
               && (n.s.pool.conns[c].pending == [] ==> stored == L.WiresOf(Store(cfg), told))
  {
    SmoothAlways(cfg, deeds, 0);
    var n := AfterDeeds(cfg, deeds);
    var l := LinkOf(n.s.pool.conns[c], n.peers[c]);
    assert L.InStep(cfg.confs[c], Store(cfg), l);
    assert l.posts[..|l.posts|] == l.posts;
  }

  /** Exit code 0: each article was told to exactly one connection, once, and the servers together have stored
      exactly the articles told to their connections. */
  lemma {:induction false} StoredOnce(cfg: Config, deeds: seq<Deed>, a: nat)
    requires Peaceful(cfg) && LegalDeeds(cfg, deeds) && AfterDeeds(cfg, deeds).s.exit == Some(EXIT_OK)
    ensures var n := AfterDeeds(cfg, deeds);
            && |n.peers| == |n.s.pool.conns| == |cfg.confs|
            && Sum(Telling(a), n.s.pool.conns) == (if a < |cfg.posts| then 1 else 0)
            && forall c :: 0 <= c < |cfg.confs| ==>
                 !n.peers[c].server.violated
                 && n.peers[c].server.stored == L.WiresOf(Store(cfg), PostsOf(n.s.pool.conns[c].hist.ops))
  {
    var n := AfterDeeds(cfg, deeds);
    var run := PoolSteps(deeds);
    PoolRuns(cfg, deeds);
    SmoothAlways(cfg, deeds, a);
    ExitOk(cfg, run, a);
    ExitedHow(cfg, run);
    StartedOnce(cfg, run, a);
    forall c | 0 <= c < |cfg.confs|
      ensures !n.peers[c].server.violated
      ensures n.peers[c].server.stored == L.WiresOf(Store(cfg), PostsOf(n.s.pool.conns[c].hist.ops))
    {
      ServersAlways(cfg, deeds, c);
    }
  }

  /** In an unfailed run with exit code 0 every article was started once. */
  lemma {:induction false} StartedOnce(cfg: Config, run: seq<Step>, a: nat)
    requires Legal(cfg, run) && After(cfg, run).exit == Some(EXIT_OK)
    requires After(cfg, run).main.failed == [] && After(cfg, run).main.refused == []
    ensures InCommands(After(cfg, run).pool.started, a) == if a < |cfg.posts| then 1 else 0
  {
    var s := After(cfg, run);
    ExitOk(cfg, run, a);
    ExitedHow(cfg, run);
    JointAlways(cfg, run);
    TallyAlways(cfg, run, a);
    forall c | 0 <= c < |s.pool.conns|
      ensures Wf(s.pool.conns[c]) && s.pool.conns[c].pending == []
    {
      assert RoleOk(s.pool, None, c);
    }
    NothingHeldAtRest(s.pool.conns, a);
  }

  /** The submission of files with clean names and settings to servers that take the credentials is peaceful. */
  lemma SubmissionIsPeaceful(run: Config, cfg: Settings, inputs: seq<Input>)
    requires Submits(run, cfg, inputs) && CleanInputs(cfg, inputs) && NulFree(cfg, inputs) && run.stats == []
    requires forall c :: 0 <= c < |run.confs| ==> L.Fit(run.confs[c])
    ensures Peaceful(run)
  {
    var m := Main(Store(run), map[], map[], 0, [], [], []);
    SubmissionIsValid(run, cfg, inputs);
    forall a | 0 <= a < |m.arts|
      ensures ArtOk(run, m, a)
    {
      assert ValidPiece(run, run.posts[a]);
    }
    AllArePostable(run, cfg, inputs, m);
  }
}
