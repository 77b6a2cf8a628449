/** src/nntp/usenet.cc and the callbacks of src/main.cc as a step system.

    `Pool` holds what the mutex m_bfm guards, and the connections. `State` adds the fields of main, the
    place the IO thread has reached inside a handler, and the producer. A step is one mutex-protected
    section, or one completion inside a connection; one IO thread interleaves with the producer. */
module PoolModel {
  import opened Text
  import opened Message
  import opened ConnModel
  import MessageId

  type Key = MessageId.Key

  datatype Command = PostCmd(art: nat) | StatCmd(id: string)

  /** Removing a connection from a list, as splice and erase do through its iterator. */
  function Without(s: seq<nat>, c: nat): seq<nat>
  {
    if s == [] then [] else if s[0] == c then Without(s[1..], c) else [s[0]] + Without(s[1..], c)
  }

  /** Connections are numbered in the order of add_connections; a number stands for a list iterator.
      `started` and `arrivals` are history: the commands handed to connections, and the commands that
      came in, resubmissions included. */
  datatype Pool = Pool(
    ready: seq<nat>,
    busy: seq<nat>,
    queue: seq<Command>,
    work: bool,
    conns: seq<Conn>,
    started: seq<Command>,
    arrivals: seq<Command>)
  {
    function At(c: nat): Conn
    {
      if c < |conns| then conns[c] else FRESH
    }

    function With(c: nat, k: Conn): Pool
    {
      if c < |conns| then this.(conns := conns[c := k]) else this
    }

    /** start_async_post, start_async_stat: the result of the request is ignored. */
    function Start(c: nat, cmd: Command): Pool
    {
      With(c, match cmd
              case PostCmd(a) => At(c).AsyncPost(a)
              case StatCmd(id) => At(c).AsyncStat(id)).(started := started + [cmd])
    }

    function Arrive(cmd: Command): Pool
    {
      this.(arrivals := arrivals + [cmd])
    }

    /** The first ready connection moves to the front of the busy list and gets the command. */
    function StartOnReady(cmd: Command): Pool
      requires ready != []
    {
      this.(ready := ready[1..], busy := [ready[0]] + busy).Start(ready[0], cmd)
    }

    function Push(cmd: Command, front: bool): Pool
    {
      Arrive(cmd).(queue := if front then [cmd] + queue else queue + [cmd])
    }

    /** dispatch_or_queue; also enqueue_post with bypass_wait, and the part of enqueue_* before the wait. */
    function DispatchOrQueue(cmd: Command, front: bool): Pool
    {
      if ready != [] then Arrive(cmd).StartOnReady(cmd) else Push(cmd, front)
    }

    predicate Full(maxsize: nat)
    {
      maxsize != 0 && |queue| >= maxsize
    }

    function Hangup(c: nat): Pool
    {
      With(c, At(c).AsyncGracefulDisconnect())
    }

    /** The loop that disconnects every ready connection. */
    function HangupReady(): Pool
      decreases |ready|
    {
      if ready == [] then this else Hangup(ready[0]).(ready := ready[1..]).HangupReady()
    }

    /** on_conn_becomes_ready. In the shutdown branch the source splices the connection into m_ready and
        erases it through m_busy; here it leaves both lists. */
    function BecomesReady(c: nat): Pool
    {
      if queue != [] then this.(queue := queue[1..]).Start(c, queue[0])
      else if work then this.(busy := Without(busy, c), ready := ready + [c])
      else this.(busy := Without(busy, c)).Hangup(c).HangupReady()
    }

    /** discard_connection */
    function Discard(c: nat): Pool
    {
      var rest := Without(busy, c);
      this.(busy := rest, work := work && (rest != [] || ready != []))
    }

    function Reconnect(c: nat): Pool
    {
      With(c, At(c).Close().AsyncConnect())
    }

    /** The handler posted as pending[i] of c is entered. */
    function Enter(c: nat, i: nat): Pool
      requires i < |At(c).pending|
    {
      With(c, At(c).Deliver(i))
    }

    /** on_connected */
    function OnConnected(c: nat, r: ConnectResult): Pool
    {
      if r.ConnectSuccess? then BecomesReady(c) else Discard(c)
    }

    /** The STAT connection-error branch of on_stat_finished: the queue is pushed without a look at the
        ready list. With `recheck` it goes through dispatch_or_queue instead. */
    function StatFailed(c: nat, id: string, recheck: bool): Pool
    {
      (if recheck then DispatchOrQueue(StatCmd(id), false) else Push(StatCmd(id), false)).Reconnect(c)
    }

    predicate Quiescent()
    {
      forall c :: 0 <= c < |conns| ==> conns[c].pending == []
    }
  }

  // ---- main ---------------------------------------------------------------------------------

  datatype Posted = Posted(art: nat, wire: string)

  /** `arts` is the store of article objects, in the order of their construction; `posted`, `failed` and
      `refused` are history: articles reported posted, with the bytes that were sent, failed posts, and
      posts that were not permitted. */
  datatype Main = Main(
    arts: seq<Article>,
    retries: map<Key, nat>,
    exceptions: map<Key, string>,
    numPosted: nat,
    posted: seq<Posted>,
    failed: seq<nat>,
    refused: seq<nat>)

  /** The random texts one run of the post-failed callback draws. */
  datatype Draw = Draw(headerName: string, headerValue: string, nonce: string)

  predicate ValidDraw(d: Draw)
  {
    MessageId.IsNonce(d.headerName, 10) && MessageId.IsNonce(d.headerValue, 5) && MessageId.IsNonce(d.nonce, 16)
  }

  datatype Verdict = Requeue | Abort | Crash

  /** Whether the post-failed callback resubmits the article, gives up the run, or fails its assertion. */
  function Judge(m: Main, art: nat): Verdict
  {
    if art >= |m.arts| then Crash
    else
      var key := MessageId.KeyOf(m.arts[art].header.msgid);
      if key.None? then Crash
      else if key.value in m.retries && m.retries[key.value] + 1 >= 3 then Abort
      else Requeue
  }

  /** The header after a failure: one random line more and a fresh message id. */
  function Renamed(h: Header, key: Key, d: Draw, domain: string): Header
  {
    h.(additional := h.additional + [Element("X-Random-" + d.headerName, d.headerValue)],
       msgid := MessageId.Print(d.nonce, domain, key))
  }

  function CountRetry(m: Main, art: nat): Main
    requires art < |m.arts| && MessageId.KeyOf(m.arts[art].header.msgid).Some?
  {
    var key := MessageId.KeyOf(m.arts[art].header.msgid).value;
    m.(retries := m.retries[key := if key in m.retries then m.retries[key] + 1 else 1], failed := m.failed + [art])
  }

  /** The post-failed callback up to its enqueue_post. */
  function PostFailed(m: Main, art: nat, d: Draw, domain: string): Main
    requires Judge(m, art) != Crash
  {
    var key := MessageId.KeyOf(m.arts[art].header.msgid).value;
    var m' := CountRetry(m, art);
    if Judge(m, art) == Abort then m'
    else m'.(exceptions := m.exceptions[key := d.nonce],
             arts := m.arts[art := m.arts[art].(header := Renamed(m.arts[art].header, key, d, domain))])
  }

  /** The post-finished callback. */
  function PostFinished(m: Main, art: nat, wire: string): Main
  {
    m.(numPosted := m.numPosted + 1, posted := m.posted + [Posted(art, wire)])
  }

  // ---- The whole program ----------------------------------------------------------------------

  /** Where the IO thread is: between handlers, or after the first lock section of one. */
  datatype Handler =
    | Idle
    | Dispatching(art: nat)                  // after discard_connection, before dispatch_or_queue
    | BecomingReady(conn: nat)               // after the post-failed callback
    | Reporting(art: nat, wire: string)      // after on_conn_becomes_ready, before the callback
    | Dying(art: nat, hand: Option<nat>)     // inside std::exit or a failed assertion

  /** The connection whose handler is under way and which has no role yet. */
  function HandOf(h: Handler): Option<nat>
  {
    match h
    case BecomingReady(c) => Some(c)
    case Dying(_, c) => c
    case _ => None
  }

  datatype Piece = Piece(key: Key, article: Article)

  /** `next` jobs are submitted; `blocked` is the command whose push waits for room. */
  datatype Producer = Producer(next: nat, blocked: Option<Command>, stopped: bool)

  /** What main submits: the articles of all pieces, built with the nonce of the run, and, when posts are
      validated, the ids to STAT afterwards. `recheck` is not in the source: it selects the variant that
      looks at the ready list again after the wait and in the STAT error branch. */
  datatype Config = Config(
    maxsize: nat, confs: seq<Conf>, posts: seq<Piece>, stats: seq<string>, nonce: string, domain: string, recheck: bool)
  {
    function Jobs(): nat
    {
      |posts| + |stats|
    }
  }

  datatype State = State(pool: Pool, main: Main, io: Handler, producer: Producer, exit: Option<nat>)

  const EXIT_OK := 0
  const EXIT_FAILED := 1
  const EXIT_CRASH := 134

  datatype Step =
    | Submit                                     // the producer's next enqueue, up to the wait
    | Wake                                       // the producer's wait ends
    | Stop                                       // usenet.stop()
    | Progress(conn: nat, i: nat, ev: Event)     // a task inside a connection completes
    | Connected(conn: nat, i: nat)
    | PostDone(conn: nat, i: nat, draw: Draw)
    | StatDone(conn: nat, i: nat)
    | Resume                                     // the next lock section of the handler under way
    | Exit                                       // join() returns and main decides

  function Iota(n: nat): seq<nat>
  {
    seq(n, i => i)
  }

  /** After start() and add_connections: n busy connections, each about to connect. */
  function InitialPool(n: nat): Pool
  {
    Pool([], Iota(n), [], true, seq(n, i => FRESH.AsyncConnect()), [], [])
  }

  function Init(cfg: Config): State
  {
    State(InitialPool(|cfg.confs|), Main([], map[], map[], 0, [], [], []), Idle, Producer(0, None, false), None)
  }

  predicate Enabled(cfg: Config, s: State, step: Step)
  {
    && s.exit.None?
    && match step
       case Submit => s.producer.blocked.None? && s.producer.next < cfg.Jobs()
       case Wake => s.producer.blocked.Some? && !s.pool.Full(cfg.maxsize)
       case Stop => s.producer.blocked.None? && s.producer.next == cfg.Jobs() && !s.producer.stopped
       case Progress(c, i, ev) => s.io.Idle? && c < |s.pool.conns| && c < |cfg.confs| && s.pool.At(c).CanComplete(i, ev)
       case Connected(c, i) => s.io.Idle? && i < |s.pool.At(c).pending| && s.pool.At(c).pending[i].ConnectDone?
       case PostDone(c, i, d) =>
         s.io.Idle? && i < |s.pool.At(c).pending| && s.pool.At(c).pending[i].PostDone?
         && s.pool.At(c).pending[i].art.Some? && ValidDraw(d)
       case StatDone(c, i) => s.io.Idle? && i < |s.pool.At(c).pending| && s.pool.At(c).pending[i].StatDone?
       case Resume => s.io.Dispatching? || s.io.BecomingReady? || s.io.Reporting?
       case Exit => s.producer.stopped && s.producer.blocked.None? && s.io.Idle? && !s.pool.work && s.pool.Quiescent()
  }

  /** enqueue_post, enqueue_stat: the command is started, blocked, or pushed. */
  function Enqueue(cfg: Config, s: State, cmd: Command): State
  {
    if s.pool.ready == [] && s.pool.Full(cfg.maxsize) then s.(producer := s.producer.(blocked := Some(cmd)))
    else s.(pool := s.pool.DispatchOrQueue(cmd, false))
  }

  /** One turn of the submission loop, or of the STAT loop after it. */
  function SubmitJob(cfg: Config, s: State): State
    requires s.producer.next < cfg.Jobs()
  {
    var n := s.producer.next;
    var s1 := s.(producer := s.producer.(next := n + 1));
    if n < |cfg.posts| then
      Enqueue(cfg, s1.(main := s1.main.(arts := s1.main.arts + [cfg.posts[n].article])), PostCmd(|s1.main.arts|))
    else Enqueue(cfg, s1, StatCmd(cfg.stats[n - |cfg.posts|]))
  }

  /** The part of enqueue_* after the wait: pushed without a look at the ready list. */
  function WakeUp(cfg: Config, s: State, cmd: Command): State
  {
    s.(producer := s.producer.(blocked := None),
       pool := if cfg.recheck then s.pool.DispatchOrQueue(cmd, false) else s.pool.Push(cmd, false))
  }

  /** on_post_finished with a failure: the callback, with the rest of the handler in `after`. */
  function Resubmit(cfg: Config, s: State, art: nat, d: Draw, after: Handler): State
  {
    match Judge(s.main, art)
    case Crash => s.(exit := Some(EXIT_CRASH), io := Dying(art, HandOf(after)))
    case Abort => s.(main := PostFailed(s.main, art, d, cfg.domain), exit := Some(EXIT_FAILED), io := Dying(art, HandOf(after)))
    case Requeue =>
      s.(main := PostFailed(s.main, art, d, cfg.domain), pool := s.pool.DispatchOrQueue(PostCmd(art), false), io := after)
  }

  /** on_post_finished, up to the end of its first lock section. */
  function OnPostFinished(cfg: Config, s: State, c: nat, art: nat, r: PostResult, d: Draw): State
  {
    match r
    case PostingNotPermitted =>
      s.(pool := s.pool.With(c, s.pool.At(c).Close()).Discard(c), io := Dispatching(art),
         main := s.main.(refused := s.main.refused + [art]))
    case PostFailure => Resubmit(cfg, s, art, d, BecomingReady(c))
    case PostConnectionError => Resubmit(cfg, s.(pool := s.pool.Reconnect(c)), art, d, Idle)
    case PostSuccess => s.(pool := s.pool.BecomesReady(c), io := Reporting(art, s.pool.At(c).sendParts))
  }

  function Next(cfg: Config, s: State, step: Step): State
    requires Enabled(cfg, s, step)
  {
    match step
    case Submit => SubmitJob(cfg, s)
    case Wake => WakeUp(cfg, s, s.producer.blocked.value)
    case Stop => s.(producer := s.producer.(stopped := true), pool := s.pool.(work := false))
    case Progress(c, i, ev) => s.(pool := s.pool.With(c, s.pool.At(c).Complete(i, ev, cfg.confs[c], s.main.arts)))
    case Connected(c, i) => s.(pool := s.pool.Enter(c, i).OnConnected(c, s.pool.At(c).pending[i].connect))
    case PostDone(c, i, d) =>
      var t := s.pool.At(c).pending[i];
      OnPostFinished(cfg, s.(pool := s.pool.Enter(c, i)), c, t.art.value, t.post, d)
    case StatDone(c, i) =>
      var t := s.pool.At(c).pending[i];
      s.(pool := if t.stat.StatConnectionError? then s.pool.Enter(c, i).StatFailed(c, t.id, cfg.recheck)
                 else s.pool.Enter(c, i).BecomesReady(c))
    case Resume =>
      (match s.io
       case Dispatching(a) => s.(pool := s.pool.DispatchOrQueue(PostCmd(a), false), io := Idle)
       case BecomingReady(c) => s.(pool := s.pool.BecomesReady(c), io := Idle)
       case Reporting(a, w) => s.(main := PostFinished(s.main, a, w), io := Idle))
    case Exit => s.(exit := Some(if |s.pool.queue| == 0 then EXIT_OK else EXIT_FAILED))
  }

  // ---- Runs -----------------------------------------------------------------------------------

  /** A run is a sequence of steps, each enabled where the ones before it lead. */
  predicate Legal(cfg: Config, run: seq<Step>)
    decreases |run|, 0
  {
    run == [] ||
    var before := run[..|run| - 1];
    Legal(cfg, before) && Enabled(cfg, After(cfg, before), run[|run| - 1])
  }

  function After(cfg: Config, run: seq<Step>): State
    requires Legal(cfg, run)
    decreases |run|, 1
  {
    if run == [] then Init(cfg)
    else
      var before := run[..|run| - 1];
      Next(cfg, After(cfg, before), run[|run| - 1])
  }
}
