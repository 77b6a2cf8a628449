/** src/main.cc as an object around the pool: its callbacks and counters, the producer, and the exit. Every
    step of the step system is a method here, and does what the step system says. */
module Program {
  import opened Text
  import opened Message
  import opened ConnModel
  import opened PoolModel
  import opened Usenet
  import MessageId

  class Program {
    const cfg: Config
    const usenet: Usenet
    /** The article objects behind the shared pointers, in the order of their construction. */
    var arts: seq<Article>
    var msgidRetries: map<Key, nat>
    var msgidExceptions: map<Key, string>
    var numPosted: nat
    /** Not in the source: what was posted, failed and refused, and where the two threads are. */
    var posted: seq<Posted>
    var failed: seq<nat>
    var refused: seq<nat>
    var io: Handler
    var producer: Producer
    var exit: Option<nat>

    ghost predicate Valid()
      reads usenet
    {
      usenet.Valid() && usenet.maxsize == cfg.maxsize && usenet.Confs() == cfg.confs && !cfg.recheck
    }

    ghost function Main(): Main
      reads `arts, `msgidRetries, `msgidExceptions, `numPosted, `posted, `failed, `refused
    {
      PoolModel.Main(arts, msgidRetries, msgidExceptions, numPosted, posted, failed, refused)
    }

    ghost function Abs(): State
      reads this, usenet, usenet.conns
    {
      State(usenet.Abs(), Main(), io, producer, exit)
    }

    constructor (cfg: Config)
      requires !cfg.recheck
      ensures Valid() && Abs() == Init(cfg) && this.cfg == cfg
      ensures fresh(usenet) && fresh(usenet.conns)
    {
      this.cfg := cfg;
      arts, msgidRetries, msgidExceptions, numPosted := [], map[], map[], 0;
      posted, failed, refused := [], [], [];
      io, producer, exit := Idle, Producer(0, None, false), None;
      var pool := Start(cfg.maxsize, cfg.confs);
      usenet := pool;
    }

    // ---- Callbacks of main ----------------------------------------------------------------------------------

    /** The post-failed callback up to its enqueue_post. */
    method PostFailed(art: nat, d: Draw) returns (verdict: Verdict)
      modifies this`arts, this`msgidRetries, this`msgidExceptions, this`failed
      ensures verdict == Judge(old(Main()), art)
      ensures Main() == if verdict == Crash then old(Main()) else PoolModel.PostFailed(old(Main()), art, d, cfg.domain)
    {
      if art >= |arts| {
        return Crash;
      }
      var parsed := MessageId.KeyOf(arts[art].header.msgid);
      if parsed.None? {
        return Crash;
      }
      var key := parsed.value;
      failed := failed + [art];
      if key !in msgidRetries {
        msgidRetries := msgidRetries[key := 1];
      } else {
        msgidRetries := msgidRetries[key := msgidRetries[key] + 1];
        if msgidRetries[key] >= 3 {
          return Abort;
        }
      }
      Rename(art, key, d);
      return Requeue;
    }

    /** One random header line more, and a fresh message id. */
    method Rename(art: nat, key: Key, d: Draw)
      requires art < |arts|
      modifies this`arts, this`msgidExceptions
      ensures msgidExceptions == old(msgidExceptions)[key := d.nonce]
      ensures arts == old(arts)[art := old(arts)[art].(header := Renamed(old(arts)[art].header, key, d, cfg.domain))]
    {
      var header := arts[art].header;
      header := header.(additional := header.additional + [Element("X-Random-" + d.headerName, d.headerValue)]);
      msgidExceptions := msgidExceptions[key := d.nonce];
      header := header.(msgid := MessageId.Print(msgidExceptions[key], cfg.domain, key));
      arts := arts[art := arts[art].(header := header)];
    }

    /** The post-finished callback. */
    method PostFinished(art: nat, wire: string)
      modifies this`numPosted, this`posted
      ensures Main() == PoolModel.PostFinished(old(Main()), art, wire)
    {
      numPosted := numPosted + 1;
      posted := posted + [Posted(art, wire)];
    }

    // ---- The producer -----------------------------------------------------------------------------------------

    /** The producer starts to wait. */
    method Block(cmd: Command)
      requires Valid()
      modifies this`producer
      ensures Valid() && Abs() == old(Abs()).(producer := old(producer).(blocked := Some(cmd)))
    {
      producer := producer.(blocked := Some(cmd));
    }

    method Enqueue(cmd: Command)
      requires Valid()
      modifies this`producer, usenet, usenet.conns
      ensures Valid() && usenet.conns == old(usenet.conns)
      ensures Abs() == PoolModel.Enqueue(cfg, old(Abs()), cmd)
    {
      var waits := usenet.Enqueue(cmd, false);
      if waits {
        Block(cmd);
      }
    }

    /** The article object of the next piece is made. */
    method NextArticle()
      requires Valid() && producer.next < |cfg.posts|
      modifies this`producer, this`arts
      ensures Valid()
      ensures var s := old(Abs());
              Abs() == s.(producer := s.producer.(next := s.producer.next + 1),
                          main := s.main.(arts := s.main.arts + [cfg.posts[s.producer.next].article]))
    {
      var n := producer.next;
      producer := producer.(next := n + 1);
      arts := arts + [cfg.posts[n].article];
    }

    /** One turn of the submission loop: the next article is enqueued. */
    method SubmitPost()
      requires Valid() && producer.next < |cfg.posts|
      modifies this, usenet, usenet.conns
      ensures Valid() && usenet.conns == old(usenet.conns)
      ensures Abs() == SubmitJob(cfg, old(Abs()))
    {
      NextArticle();
      Enqueue(PostCmd(|arts| - 1));
    }

    /** One turn of the STAT loop after it. */
    method SubmitStat()
      requires Valid() && |cfg.posts| <= producer.next < cfg.Jobs()
      modifies this, usenet, usenet.conns
      ensures Valid() && usenet.conns == old(usenet.conns)
      ensures Abs() == SubmitJob(cfg, old(Abs()))
    {
      var n := producer.next;
      producer := producer.(next := n + 1);
      Enqueue(StatCmd(cfg.stats[n - |cfg.posts|]));
    }

    method Submit()
      requires Valid() && Enabled(cfg, Abs(), Step.Submit)
      modifies this, usenet, usenet.conns
      ensures Valid() && usenet.conns == old(usenet.conns)
      ensures Abs() == Next(cfg, old(Abs()), Step.Submit)
    {
      if producer.next < |cfg.posts| {
        SubmitPost();
      } else {
        SubmitStat();
      }
    }

    /** The wait is over. */
    method Wake()
      requires Valid() && Enabled(cfg, Abs(), Step.Wake)
      modifies this`producer, usenet
      ensures Valid() && usenet.conns == old(usenet.conns)
      ensures Abs() == Next(cfg, old(Abs()), Step.Wake)
    {
      var cmd := producer.blocked.value;
      producer := producer.(blocked := None);
      usenet.AfterWait(cmd);
    }

    method Stop()
      requires Valid() && Enabled(cfg, Abs(), Step.Stop)
      modifies this`producer, usenet
      ensures Valid() && usenet.conns == old(usenet.conns)
      ensures Abs() == Next(cfg, old(Abs()), Step.Stop)
    {
      StopUsenet();
      EndSubmission();
    }

    method StopUsenet()
      requires Valid()
      modifies usenet
      ensures Valid() && usenet.conns == old(usenet.conns)
      ensures Abs() == old(Abs()).(pool := old(Abs()).pool.(work := false))
    {
      usenet.Stop();
    }

    method EndSubmission()
      requires Valid()
      modifies this`producer
      ensures Valid() && Abs() == old(Abs()).(producer := old(producer).(stopped := true))
    {
      producer := producer.(stopped := true);
    }

    /** join() has returned: the exit decision. */
    method Exit()
      requires Valid() && Enabled(cfg, Abs(), Step.Exit)
      modifies this`exit
      ensures Valid() && Abs() == Next(cfg, old(Abs()), Step.Exit)
    {
      if |usenet.queue| == 0 {
        exit := Some(EXIT_OK);
      } else {
        exit := Some(EXIT_FAILED);
      }
    }

    // ---- The IO thread ----------------------------------------------------------------------------------------

    method Progress(c: nat, i: nat, ev: Event)
      requires Valid() && Enabled(cfg, Abs(), Step.Progress(c, i, ev))
      modifies usenet.conns
      ensures Valid() && Abs() == Next(cfg, old(Abs()), Step.Progress(c, i, ev))
    {
      assert usenet.conns[c].conf == usenet.Confs()[c];
      usenet.Progress(c, i, ev, arts);
    }

    /** The handler of connection c is entered. */
    method Enter(c: nat, i: nat)
      requires Valid() && c < |usenet.conns| && i < |Abs().pool.At(c).pending|
      modifies usenet.conns
      ensures Valid() && usenet.conns == old(usenet.conns)
      ensures Abs() == old(Abs()).(pool := old(Abs()).pool.Enter(c, i))
    {
      usenet.Enter(c, i);
    }

    method OnConnected(c: nat, result: ConnectResult)
      requires Valid() && c < |usenet.conns|
      modifies usenet, usenet.conns
      ensures Valid() && usenet.conns == old(usenet.conns)
      ensures Abs() == old(Abs()).(pool := old(Abs()).pool.OnConnected(c, result))
    {
      usenet.OnConnected(c, result);
    }

    method Connected(c: nat, i: nat)
      requires Valid() && Enabled(cfg, Abs(), Step.Connected(c, i))
      modifies usenet, usenet.conns
      ensures Valid() && usenet.conns == old(usenet.conns)
      ensures Abs() == Next(cfg, old(Abs()), Step.Connected(c, i))
    {
      var result := usenet.conns[c].pending[i].connect;
      Enter(c, i);
      OnConnected(c, result);
    }

    method StatLost(c: nat, id: string)
      requires Valid() && c < |usenet.conns|
      modifies usenet, usenet.conns
      ensures Valid() && usenet.conns == old(usenet.conns)
      ensures Abs() == old(Abs()).(pool := old(Abs()).pool.StatFailed(c, id, false))
    {
      usenet.OnStatFinished(c, id, StatConnectionError);
    }

    method StatAnswered(c: nat, id: string, result: StatResult)
      requires Valid() && c < |usenet.conns| && !result.StatConnectionError?
      modifies usenet, usenet.conns
      ensures Valid() && usenet.conns == old(usenet.conns)
      ensures Abs() == old(Abs()).(pool := old(Abs()).pool.BecomesReady(c))
    {
      usenet.OnStatFinished(c, id, result);
    }

    method StatDone(c: nat, i: nat)
      requires Valid() && Enabled(cfg, Abs(), Step.StatDone(c, i))
      modifies usenet, usenet.conns
      ensures Valid() && usenet.conns == old(usenet.conns)
      ensures Abs() == Next(cfg, old(Abs()), Step.StatDone(c, i))
    {
      var t := usenet.conns[c].pending[i];
      Enter(c, i);
      if t.stat.StatConnectionError? {
        StatLost(c, t.id);
      } else {
        StatAnswered(c, t.id, t.stat);
      }
    }

    /** enqueue_post with bypass_wait, called at the end of the post-failed callback. */
    method EnqueueAgain(art: nat, after: Handler)
      requires Valid()
      modifies this`io, usenet, usenet.conns
      ensures Valid() && usenet.conns == old(usenet.conns)
      ensures Abs() == old(Abs()).(pool := old(Abs()).pool.DispatchOrQueue(PostCmd(art), false), io := after)
    {
      var waits := usenet.Enqueue(PostCmd(art), true);
      io := after;
    }

    /** std::exit, or the failed assertion, inside the handler. */
    method Die(art: nat, after: Handler, code: nat)
      requires Valid()
      modifies this`io, this`exit
      ensures Valid() && Abs() == old(Abs()).(exit := Some(code), io := Dying(art, HandOf(after)))
    {
      exit := Some(code);
      io := Dying(art, HandOf(after));
    }

    method TellFailed(art: nat, d: Draw) returns (verdict: Verdict)
      requires Valid()
      modifies this`arts, this`msgidRetries, this`msgidExceptions, this`failed
      ensures Valid() && verdict == Judge(old(Main()), art)
      ensures Abs() == if verdict == Crash then old(Abs())
                       else old(Abs()).(main := PoolModel.PostFailed(old(Main()), art, d, cfg.domain))
    {
      verdict := PostFailed(art, d);
    }

    /** m_slot_post_failed, called from on_post_finished. */
    method Resubmit(art: nat, d: Draw, after: Handler)
      requires Valid()
      modifies this, usenet, usenet.conns
      ensures Valid() && usenet.conns == old(usenet.conns)
      ensures Abs() == PoolModel.Resubmit(cfg, old(Abs()), art, d, after)
    {
      var verdict := TellFailed(art, d);
      if verdict == Crash {
        Die(art, after, EXIT_CRASH);
      } else if verdict == Abort {
        Die(art, after, EXIT_FAILED);
      } else {
        EnqueueAgain(art, after);
      }
    }

    /** The article is on its way back to the queue. */
    method HoldArticle(art: nat)
      modifies this`refused, this`io
      ensures Abs() == old(Abs()).(io := Dispatching(art), main := old(Abs()).main.(refused := old(Abs()).main.refused + [art]))
    {
      refused := refused + [art];
      io := Dispatching(art);
    }

    method OnPostRefused(c: nat, art: nat)
      requires Valid() && c < |usenet.conns|
      modifies this`refused, this`io, usenet, usenet.conns
      ensures Valid() && usenet.conns == old(usenet.conns)
      ensures var s := old(Abs());
              Abs() == s.(pool := s.pool.With(c, s.pool.At(c).Close()).Discard(c), io := Dispatching(art),
                          main := s.main.(refused := s.main.refused + [art]))
    {
      ghost var s := Abs();
      usenet.OnNotPermitted(c);
      assert Abs() == s.(pool := s.pool.With(c, s.pool.At(c).Close()).Discard(c));
      HoldArticle(art);
    }

    method OnPostSucceeded(c: nat, art: nat)
      requires Valid() && c < |usenet.conns|
      modifies this`io, usenet, usenet.conns
      ensures Valid() && usenet.conns == old(usenet.conns)
      ensures var s := old(Abs());
              Abs() == s.(pool := s.pool.BecomesReady(c), io := Reporting(art, s.pool.At(c).sendParts))
    {
      ghost var p := usenet.Abs();
      var wire := usenet.conns[c].sendParts;
      assert wire == p.At(c).sendParts;
      usenet.OnConnBecomesReady(c);
      io := Reporting(art, wire);
      assert usenet.Abs() == p.BecomesReady(c);
    }

    method ReconnectAndResubmit(c: nat, art: nat, d: Draw)
      requires Valid() && c < |usenet.conns|
      modifies this, usenet, usenet.conns
      ensures Valid() && usenet.conns == old(usenet.conns)
      ensures Abs() == PoolModel.Resubmit(cfg, old(Abs()).(pool := old(Abs()).pool.Reconnect(c)), art, d, Idle)
    {
      ghost var s := Abs();
      usenet.Reconnect(c);
      assert Abs() == s.(pool := s.pool.Reconnect(c));
      Resubmit(art, d, Idle);
    }

    /** on_post_finished, up to the end of its first section under the mutex. */
    method OnPostFinished(c: nat, art: nat, result: PostResult, d: Draw)
      requires Valid() && c < |usenet.conns|
      modifies this, usenet, usenet.conns
      ensures Valid() && usenet.conns == old(usenet.conns)
      ensures Abs() == PoolModel.OnPostFinished(cfg, old(Abs()), c, art, result, d)
    {
      match result {
        case PostingNotPermitted => OnPostRefused(c, art);
        case PostFailure => Resubmit(art, d, BecomingReady(c));
        case PostConnectionError => ReconnectAndResubmit(c, art, d);
        case PostSuccess => OnPostSucceeded(c, art);
      }
    }

    method PostDone(c: nat, i: nat, d: Draw)
      requires Valid() && Enabled(cfg, Abs(), Step.PostDone(c, i, d))
      modifies this, usenet, usenet.conns
      ensures Valid() && usenet.conns == old(usenet.conns)
      ensures Abs() == Next(cfg, old(Abs()), Step.PostDone(c, i, d))
    {
      var t := usenet.conns[c].pending[i];
      usenet.Enter(c, i);
      OnPostFinished(c, t.art.value, t.post, d);
    }

    method Return()
      modifies this`io
      ensures Abs() == old(Abs()).(io := Idle)
    {
      io := Idle;
    }

    /** The rest of on_post_finished. */
    method Resume()
      requires Valid() && Enabled(cfg, Abs(), Step.Resume)
      requires io.BecomingReady? ==> io.conn < |usenet.conns|
      modifies this, usenet, usenet.conns
      ensures Valid() && usenet.conns == old(usenet.conns)
      ensures Abs() == Next(cfg, old(Abs()), Step.Resume)
    {
      if io.Dispatching? {
        DispatchAgain(io.art);
      } else if io.BecomingReady? {
        OnConnBecomesReady(io.conn);
      } else {
        TellPosted(io.art, io.wire);
      }
      Return();
    }

    method DispatchAgain(art: nat)
      requires Valid()
      modifies usenet, usenet.conns
      ensures Valid() && usenet.conns == old(usenet.conns)
      ensures Abs() == old(Abs()).(pool := old(Abs()).pool.DispatchOrQueue(PostCmd(art), false))
    {
      usenet.DispatchOrQueue(PostCmd(art), false);
    }

    method OnConnBecomesReady(c: nat)
      requires Valid() && c < |usenet.conns|
      modifies usenet, usenet.conns
      ensures Valid() && usenet.conns == old(usenet.conns)
      ensures Abs() == old(Abs()).(pool := old(Abs()).pool.BecomesReady(c))
    {
      usenet.OnConnBecomesReady(c);
    }

    method TellPosted(art: nat, wire: string)
      requires Valid()
      modifies this`numPosted, this`posted
      ensures Valid() && Abs() == old(Abs()).(main := PoolModel.PostFinished(old(Main()), art, wire))
    {
      PostFinished(art, wire);
    }

    method Do(step: Step)
      requires Valid() && Enabled(cfg, Abs(), step)
      requires io.BecomingReady? ==> io.conn < |usenet.conns|
      modifies this, usenet, usenet.conns
      ensures Valid() && usenet.conns == old(usenet.conns)
      ensures Abs() == Next(cfg, old(Abs()), step)
    {
      match step {
        case Submit => Submit();
        case Wake => Wake();
        case Stop => Stop();
        case Progress(c, i, ev) => Progress(c, i, ev);
        case Connected(c, i) => Connected(c, i);
        case PostDone(c, i, d) => PostDone(c, i, d);
        case StatDone(c, i) => StatDone(c, i);
        case Resume => Resume();
        case Exit => Exit();
      }
    }
  }
}
