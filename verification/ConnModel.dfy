/** src/nntp/connection.{hpp,cc}: the state of one connection and what each callback makes of it.

    `pending` lists what the connection has scheduled with the io service: posted handlers and socket
    operations in flight. That it never holds more than one entry is a theorem, not a definition. */
module ConnModel {
  import opened Text
  import opened Message

  datatype ConnState = Disconnected | Connecting | Authenticated | Busy

  datatype ConnectResult = FatalConnectError | InvalidCredentials | ConnectSuccess
  datatype PostResult = PostSuccess | PostingNotPermitted | PostFailure | PostConnectionError
  datatype StatResult = ArticleExists | InvalidArticle | StatConnectionError

  datatype Task =
    | RunConnect                      // do_connect, posted
    | Resolving | Dialing | Handshaking
    | AwaitWelcome | WritingUser | AwaitUserReply | WritingPass | AwaitPassReply
    | ConnectDone(connect: ConnectResult)                 // m_connecthandler, posted
    | RunPost                         // do_post, posted
    | WritingPost | AwaitPostReply | WritingArticle | AwaitArticleReply
    | PostDone(art: Option<nat>, post: PostResult)        // m_posthandler, posted
    | RunStat                         // do_stat, posted
    | WritingStat | AwaitStatReply
    | StatDone(id: string, stat: StatResult)              // m_stathandler, posted
    | WritingQuit

  /** How the io service completes a task: it went well, it failed (after these bytes arrived, for a
      read), or a read completes because these bytes arrived. */
  datatype Event = Ok | Err(arrived: string) | Data(arrived: string)

  /** A byte in the read buffer, and the session of the socket it came from. */
  datatype Rx = Rx(session: nat, c: char)

  // ---- History: what was accepted, what the network answered, what was reported ---------------

  datatype Kind = Connect | Post(ref: nat) | Stat(name: string)
  datatype Result = OfConnect(c: ConnectResult) | OfPost(p: PostResult) | OfStat(s: StatResult)
  datatype Seen = Went | Failed | Reply(bytes: seq<Rx>)
  datatype Op = Op(kind: Kind, session: nat, seen: seq<Seen>, result: Option<Result>)

  /** `session` counts do_connect; `ops` are the accepted operations; `called` are the handler calls made;
      `faults` counts refused requests, overwritten operands and failed assertions; `sent` are the bytes
      written in this session. */
  datatype History = History(session: nat, ops: seq<Op>, called: seq<Task>, faults: nat, sent: string)

  datatype Conf = Conf(tls: bool, username: string, password: string)

  function TextOf(rx: seq<Rx>): (s: string)
    ensures |s| == |rx|
  {
    seq(|rx|, i requires 0 <= i < |rx| => rx[i].c)
  }

  function Tagged(s: string, session: nat): seq<Rx>
  {
    seq(|s|, i requires 0 <= i < |s| => Rx(session, s[i]))
  }

  function RemoveAt<T>(s: seq<T>, i: nat): seq<T>
    requires i < |s|
  {
    s[..i] + s[i + 1..]
  }

  const POST := "POST\r\n"
  const QUIT := "QUIT\r\n"

  function UserCommand(conf: Conf): string
  {
    ("AUTHINFO USER " + conf.username) + CRLF
  }

  function PassCommand(conf: Conf): string
  {
    ("AUTHINFO PASS " + conf.password) + CRLF
  }

  function StatCommand(id: string): string
  {
    ("STAT " + id) + CRLF
  }

  /** The article behind a shared_ptr: an index into the store of articles. */
  function WireOf(store: seq<Article>, art: Option<nat>): string
  {
    if art.Some? && art.value < |store| then Wire(store[art.value]) else ""
  }

  datatype Conn = Conn(
    state: ConnState,
    article: Option<nat>,
    msgid: string,
    readbuf: seq<Rx>,
    sendParts: string,
    pending: seq<Task>,
    hist: History)
  {
    // ---- Bookkeeping ----

    function Schedule(t: Task): Conn
    {
      this.(pending := pending + [t])
    }

    function Accept(kind: Kind, session: nat): Conn
    {
      this.(hist := hist.(ops := hist.ops + [Op(kind, session, [], None)]))
    }

    function Fault(): Conn
    {
      this.(hist := hist.(faults := hist.faults + 1))
    }

    function Note(s: Seen): Conn
    {
      if hist.ops == [] then this
      else
        var n := |hist.ops| - 1;
        this.(hist := hist.(ops := hist.ops[n := hist.ops[n].(seen := hist.ops[n].seen + [s])]))
    }

    function Report(r: Result): Conn
    {
      if hist.ops == [] then this
      else
        var n := |hist.ops| - 1;
        this.(hist := hist.(ops := hist.ops[n := hist.ops[n].(result := Some(r))]))
    }

    function Send(bytes: string, t: Task): Conn
    {
      this.(hist := hist.(sent := hist.sent + bytes)).Schedule(t)
    }

    // ---- Requests ----

    function AsyncConnect(): Conn
    {
      if state == Disconnected then Accept(Connect, hist.session + 1).Schedule(RunConnect) else this
    }

    /** The result of async_post is ignored by its caller; a refusal leaves the article with nobody. */
    function AsyncPost(art: nat): Conn
    {
      if state != Authenticated then Fault()
      else (if article.Some? || pending != [] then Fault() else this)
           .(article := Some(art)).Accept(Post(art), hist.session).Schedule(RunPost)
    }

    function AsyncStat(id: string): Conn
    {
      if state != Authenticated then Fault()
      else (if pending != [] then Fault() else this).(msgid := id).Accept(Stat(id), hist.session).Schedule(RunStat)
    }

    function Close(): Conn
    {
      if state == Disconnected then this else this.(readbuf := [], state := Disconnected)
    }

    function AsyncGracefulDisconnect(): Conn
    {
      if state == Authenticated then this.(state := Busy).Send(QUIT, WritingQuit) else Fault()
    }

    // ---- Completion callbacks ----

    function ConnectCallback(r: ConnectResult): Conn
    {
      Report(OfConnect(r)).Schedule(ConnectDone(r))
    }

    function PostCallback(r: PostResult): Conn
    {
      this.(state := Authenticated, article := None).Report(OfPost(r)).Schedule(PostDone(article, r))
    }

    function StatCallback(r: StatResult): Conn
    {
      this.(state := Authenticated, msgid := "").Report(OfStat(r)).Schedule(StatDone(msgid, r))
    }

    function CheckAuthinfoResult(line: string): Conn
    {
      if "2" <= line then this.(state := Authenticated).ConnectCallback(ConnectSuccess)
      else ConnectCallback(InvalidCredentials)
    }

    // ---- One task completes ----

    predicate Awaits(t: Task)
    {
      t.AwaitWelcome? || t.AwaitUserReply? || t.AwaitPassReply? || t.AwaitPostReply? || t.AwaitArticleReply? || t.AwaitStatReply?
    }

    predicate Runs(t: Task)
    {
      t.RunConnect? || t.RunPost? || t.RunStat?
    }

    predicate Calls(t: Task)
    {
      t.ConnectDone? || t.PostDone? || t.StatDone?
    }

    /** A read completes when the buffer holds a CRLF, and takes no more from the socket once it does. */
    predicate CanComplete(i: nat, ev: Event)
    {
      i < |pending| &&
      var t := pending[i];
      if Calls(t) then false
      else if Runs(t) then ev == Ok
      else if Awaits(t) then
        && !ev.Ok?
        && (ev.Data? <==> LineEnd(TextOf(readbuf) + ev.arrived) != 0)
        && (LineEnd(TextOf(readbuf)) != 0 ==> ev.arrived == "")
      else ev == Ok || ev == Err("")
    }

    /** Removing a task that completes. */
    function Done(i: nat): Conn
      requires i < |pending|
    {
      this.(pending := RemoveAt(pending, i))
    }

    /** do_connect, do_post, do_stat */
    function Run(t: Task): Conn
      requires Runs(t)
    {
      match t
      case RunConnect =>
        this.(state := Connecting, hist := hist.(session := hist.session + 1, sent := "")).Schedule(Resolving)
      case RunPost => this.(state := Busy).Send(POST, WritingPost)
      case RunStat => this.(state := Busy).Send(StatCommand(msgid), WritingStat)
    }

    /** The failure branch of the callback of t. */
    function Fails(t: Task): Conn
      requires !Runs(t) && !Calls(t)
    {
      match t
      case WritingPost | AwaitPostReply | WritingArticle | AwaitArticleReply => PostCallback(PostConnectionError)
      case WritingStat | AwaitStatReply => StatCallback(StatConnectionError)
      case WritingQuit => Close()
      case _ => ConnectCallback(FatalConnectError)
    }

    /** The success branch of the callback of t, for everything but reads. */
    function Succeeds(t: Task, conf: Conf): Conn
      requires !Runs(t) && !Calls(t) && !Awaits(t)
    {
      match t
      case Resolving => Schedule(Dialing)
      case Dialing => if conf.tls then Schedule(Handshaking) else Schedule(AwaitWelcome)
      case Handshaking => Schedule(AwaitWelcome)
      case WritingUser => Schedule(AwaitUserReply)
      case WritingPass => Schedule(AwaitPassReply)
      case WritingPost => Schedule(AwaitPostReply)
      case WritingArticle => Schedule(AwaitArticleReply)
      case WritingStat => Schedule(AwaitStatReply)
      case WritingQuit => Close()
    }

    /** The success branch of the callback of a read. */
    function Hears(t: Task, line: string, conf: Conf, store: seq<Article>): Conn
      requires Awaits(t)
    {
      match t
      case AwaitWelcome =>
        if !("2" <= line) then ConnectCallback(FatalConnectError) else Send(UserCommand(conf), WritingUser)
      case AwaitUserReply =>
        if "381" <= line then Send(PassCommand(conf), WritingPass) else CheckAuthinfoResult(line)
      case AwaitPassReply => CheckAuthinfoResult(line)
      case AwaitPostReply =>
        if "4" <= line then PostCallback(PostingNotPermitted) else SendArticle(store)
      case AwaitArticleReply =>
        if "2" <= line then PostCallback(PostSuccess) else PostCallback(PostFailure)
      case AwaitStatReply =>
        if "2" <= line then StatCallback(ArticleExists) else StatCallback(InvalidArticle)
    }

    function SendArticle(store: seq<Article>): Conn
    {
      var parts := WireOf(store, article);
      this.(sendParts := parts).Send(parts, WritingArticle)
    }

    /** async_read_line: the first line leaves the buffer. */
    function Receive(arrived: string): Conn
    {
      this.(readbuf := readbuf + Tagged(arrived, hist.session))
    }

    function Complete(i: nat, ev: Event, conf: Conf, store: seq<Article>): Conn
      requires CanComplete(i, ev)
    {
      var t, k := pending[i], Done(i);
      if Runs(t) then k.Run(t)
      else if t.WritingQuit? then k.Close()
      else if ev.Ok? then k.Note(Went).Succeeds(t, conf)
      else if ev.Err? then k.Receive(ev.arrived).Note(Failed).Fails(t)
      else
        var b := k.Receive(ev.arrived).readbuf;
        assert TextOf(b) == TextOf(readbuf) + ev.arrived;
        var e := LineEnd(TextOf(b));
        k.(readbuf := b[e..]).Note(Reply(b[..e])).Hears(t, TextOf(b[..e]), conf, store)
    }

    /** The io service runs the handler posted as pending[i]. */
    function Deliver(i: nat): Conn
      requires i < |pending|
    {
      Done(i).(hist := hist.(called := hist.called + [pending[i]]))
    }
  }

  const FRESH := Conn(Disconnected, None, "", [], "", [], History(0, [], [], 0, ""))
}
