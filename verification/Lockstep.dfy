/** The client and the dummy server, connected: every run without errors, in any interleaving and however
    the bytes are cut into arrivals. */
module Lockstep {
  import opened Text
  import opened Message
  import opened ConnModel
  import opened ConnTheory
  import opened DummyServer

  /** `consumed` bytes of what the client sent have been read by the server, `received` bytes of what the
      server wrote have been read by the client; `posts` are the articles the client was told to post. */
  datatype Link = Link(client: Conn, server: Session, consumed: nat, received: nat, posts: seq<nat>)
  {
    function ToServer(): string
    {
      if consumed <= |client.hist.sent| then client.hist.sent[consumed..] else ""
    }

    function ToClient(): string
    {
      if received <= |server.out| then server.out[received..] else ""
    }

    /** The one task of the client. */
    function Now(): Option<Task>
    {
      if |client.pending| == 1 then Some(client.pending[0]) else None
    }
  }

  datatype Move =
    | Completes(ev: Event)     // the client's socket operation completes, without an error
    | Shakes                   // the server finishes the handshake and writes its welcome
    | Reads                    // the server reads a line and answers
    | Handles                  // the client's owner is called back
    | Posts(art: nat)          // and posts an article
    | Quits                    // or hangs up

  predicate Can(store: seq<Article>, l: Link, m: Move)
  {
    match m
    case Completes(ev) => l.client.CanComplete(0, ev) && !ev.Err? && (ev.Data? ==> ev.arrived <= l.ToClient())
    case Shakes => l.server.phase.Handshake? && l.Now().Some? && (l.Now().value.Handshaking? || l.Now().value.AwaitWelcome?)
    case Reads => l.server.Reading() && LineEnd(l.ToServer()) != 0
    case Handles => l.Now().Some? && l.client.Calls(l.Now().value)
    case Posts(art) => l.client.pending == [] && l.client.state == Authenticated && art < |store|
    case Quits => l.client.pending == [] && l.client.state == Authenticated
  }

  function Do(conf: Conf, store: seq<Article>, l: Link, m: Move): Link
    requires Can(store, l, m)
  {
    match m
    case Completes(ev) =>
      l.(client := l.client.Complete(0, ev, conf, store), received := l.received + if ev.Data? then |ev.arrived| else 0)
    case Shakes => l.(server := l.server.Welcome())
    case Reads =>
      var e := LineEnd(l.ToServer());
      l.(server := l.server.OnLine(l.ToServer()[..e]), consumed := l.consumed + e)
    case Handles => l.(client := l.client.Deliver(0))
    case Posts(art) => l.(client := l.client.AsyncPost(art), posts := l.posts + [art])
    case Quits => l.(client := l.client.AsyncGracefulDisconnect())
  }

  const DIALED := Link(FRESH.AsyncConnect(), ACCEPTED, 0, 0, [])

  predicate LegalMoves(conf: Conf, store: seq<Article>, moves: seq<Move>)
    decreases |moves|, 0
  {
    moves == [] ||
    var before := moves[..|moves| - 1];
    LegalMoves(conf, store, before) && Can(store, AfterMoves(conf, store, before), moves[|moves| - 1])
  }

  function AfterMoves(conf: Conf, store: seq<Article>, moves: seq<Move>): Link
    requires LegalMoves(conf, store, moves)
    decreases |moves|, 1
  {
    if moves == [] then DIALED
    else
      var before := moves[..|moves| - 1];
      Do(conf, store, AfterMoves(conf, store, before), moves[|moves| - 1])
  }

  // ---- Matching positions ---------------------------------------------------------------------------------

  /** Nothing is on its way in either direction. */
  predicate Still(l: Link, phase: Phase)
  {
    l.ToServer() == "" && l.ToClient() == "" && l.server.phase == phase
  }

  /** A command is on its way to the server, or its answer on its way to the client. */
  predicate Asked(l: Link, command: string, before: Phase, after: Phase, answer: string)
  {
    || (l.ToServer() == command && l.ToClient() == "" && l.server.phase == before)
    || (l.ToServer() == "" && l.ToClient() == answer && l.server.phase == after)
  }

  /** The handshake is not over on the server's side, or its welcome is on its way. */
  predicate Greeted(l: Link)
  {
    || Still(l, Handshake)
    || (l.ToServer() == "" && l.ToClient() == SERVER_WELCOME && l.server.phase.WantUser?)
  }

  /** Part of the article is in the server's file and the rest on its way, or the verdict is. */
  predicate Transferring(l: Link, w: string)
  {
    || (l.server.phase.Receiving? && l.ToClient() == "" && Postable(l.ToServer()) && l.server.phase.current + l.ToServer() == w)
    || (l.ToServer() == "" && l.ToClient() == SERVER_ARTICLE_POSTED && l.server.phase.Command?)
  }

  /** The client's goodbye is on its way, or has ended the session. */
  predicate Leaving(l: Link)
  {
    l.ToClient() == "" && ((l.ToServer() == QUIT && l.server.phase.Command?) || (l.ToServer() == "" && l.server.phase.Closed?))
  }

  /** The server's position for each of the client's. */
  predicate Position(conf: Conf, store: seq<Article>, l: Link)
  {
    if l.Now().None? then if l.client.state == Authenticated then Still(l, Command) else l.client.state == Disconnected && Leaving(l)
    else
      match l.Now().value
      case RunConnect => Still(l, Handshake) && l.client.hist.sent == "" && l.consumed == 0
      case Resolving => Still(l, Handshake)
      case Dialing => Still(l, Handshake)
      case Handshaking => Greeted(l)
      case AwaitWelcome => Greeted(l)
      case WritingUser => Asked(l, UserCommand(conf), WantUser, WantPass, SERVER_AUTH)
      case AwaitUserReply => Asked(l, UserCommand(conf), WantUser, WantPass, SERVER_AUTH)
      case WritingPass => Asked(l, PassCommand(conf), WantPass, Command, SERVER_AUTH_SUCCESS)
      case AwaitPassReply => Asked(l, PassCommand(conf), WantPass, Command, SERVER_AUTH_SUCCESS)
      case ConnectDone(r) => r.ConnectSuccess? && Still(l, Command)
      case RunPost => Still(l, Command)
      case WritingPost => Asked(l, POST, Command, Receiving(""), SERVER_SEND_ARTICLE)
      case AwaitPostReply => Asked(l, POST, Command, Receiving(""), SERVER_SEND_ARTICLE)
      case WritingArticle => Transferring(l, WireOf(store, l.client.article))
      case AwaitArticleReply => Transferring(l, WireOf(store, l.client.article))
      case PostDone(_, r) => r.PostSuccess? && Still(l, Command)
      case WritingQuit => Leaving(l)
      case _ => false
  }

  /** 1 while the article told last is not yet in a file of the server. */
  function Unstored(l: Link): nat
  {
    if l.Now().None? then 0
    else
      match l.Now().value
      case RunPost | WritingPost | AwaitPostReply => 1
      case WritingArticle | AwaitArticleReply => if l.server.phase.Receiving? then 1 else 0
      case _ => 0
  }

  function WiresOf(store: seq<Article>, posts: seq<nat>): seq<string>
  {
    seq(|posts|, i requires 0 <= i < |posts| => WireOf(store, Some(posts[i])))
  }

  /** The article in the client's hands is the one told last; everything before it is stored, in order. */
  ghost predicate Filed(store: seq<Article>, l: Link)
  {
    && Unstored(l) <= |l.posts|
    && (Held(l.client).Some? ==> l.posts != [] && Held(l.client) == Some(l.posts[|l.posts| - 1]) && Held(l.client).value < |store|)
    && l.server.stored == WiresOf(store, l.posts[..|l.posts| - Unstored(l)])
  }

  ghost predicate InStep(conf: Conf, store: seq<Article>, l: Link)
  {
    && Wf(l.client) && l.client.readbuf == []
    && l.consumed <= |l.client.hist.sent| && l.received <= |l.server.out|
    && !l.server.violated
    && Position(conf, store, l) && Filed(store, l)
  }

  /** What both sides need of the configuration: TLS, and no line break in the credentials. */
  predicate Fit(conf: Conf)
  {
    conf.tls && Plain(conf.username) && Plain(conf.password)
  }

  ghost predicate AllPostable(store: seq<Article>)
  {
    forall a :: 0 <= a < |store| ==> Postable(Wire(store[a]))
  }

  // ---- Texts ------------------------------------------------------------------------------------------------

  lemma WelcomeLine()
    ensures IsLine(SERVER_WELCOME) && "2" <= SERVER_WELCOME
  {
    var body := "200 Some Generic Welcome " + "Message (Posting Allowed)";
    assert Plain("200 Some Generic Welcome ") && Plain("Message (Posting Allowed)");
    assert Plain(body);
    PlainLine(body);
  }

  lemma AuthLines()
    ensures IsLine(SERVER_AUTH) && "381" <= SERVER_AUTH
    ensures IsLine(SERVER_AUTH_SUCCESS) && "2" <= SERVER_AUTH_SUCCESS && !("381" <= SERVER_AUTH_SUCCESS)
  {
    PlainLine("381 PASS required");
    PlainLine("281 Posting allowed");
    PrefixAgrees("381", SERVER_AUTH_SUCCESS);
  }

  lemma PostLines()
    ensures IsLine(SERVER_SEND_ARTICLE) && !("4" <= SERVER_SEND_ARTICLE)
    ensures IsLine(SERVER_ARTICLE_POSTED) && "2" <= SERVER_ARTICLE_POSTED
  {
    PlainLine("381 Send article to be posted");
    PlainLine("200 Article posted");
    PrefixAgrees("4", SERVER_SEND_ARTICLE);
  }

  lemma LoginLines(conf: Conf)
    requires Fit(conf)
    ensures IsLine(UserCommand(conf)) && "AUTHINFO USER" <= UserCommand(conf)
    ensures IsLine(PassCommand(conf)) && "AUTHINFO PASS" <= PassCommand(conf)
  {
    PlainLine("AUTHINFO USER " + conf.username);
    PlainLine("AUTHINFO PASS " + conf.password);
  }

  lemma PostLine()
    ensures IsLine(POST) && "POST" <= POST
  {
    PlainLine("POST");
    assert POST == "POST" + CRLF;
  }

  lemma QuitLine()
    ensures IsLine(QUIT) && "QUIT" <= QUIT && !("POST" <= QUIT)
  {
    PlainLine("QUIT");
    assert QUIT == "QUIT" + CRLF;
    PrefixAgrees("POST", QUIT);
  }

  /** A read that completes takes the whole answer, however it was cut. */
  lemma WholeAnswer(arrived: string, answer: string)
    requires arrived <= answer && LineEnd(arrived) != 0 && (IsLine(answer) || answer == "")
    ensures arrived == answer
  {
    var rest := answer[|arrived|..];
    assert answer == arrived + rest;
    LineEndPrefix(arrived, rest);
  }

  // ---- The server moves -------------------------------------------------------------------------------------

  lemma ServerAnswers(l: Link, line: string, answer: string, after: Phase)
    requires l.consumed <= |l.client.hist.sent| && l.received <= |l.server.out|
    requires l.ToServer() == line && IsLine(line) && l.ToClient() == "" && l.server.Reading()
    requires l.server.OnLine(line).out == l.server.out + answer && l.server.OnLine(line).phase == after
    ensures var l' := l.(server := l.server.OnLine(line), consumed := l.consumed + |line|);
            && l'.ToServer() == "" && l'.ToClient() == answer
            && l'.consumed <= |l.client.hist.sent| && l'.received <= |l'.server.out|
  {
  }

  /** The store of the server follows what the client holds. */
  lemma FiledSame(store: seq<Article>, l: Link, l': Link)
    requires Filed(store, l) && l'.posts == l.posts && l'.server.stored == l.server.stored
    requires Held(l'.client) == Held(l.client) && Unstored(l') == Unstored(l)
    ensures Filed(store, l')
  {
  }

  /** The server reads a command that is on its way, and answers. */
  lemma ReadsCommand(conf: Conf, store: seq<Article>, l: Link, command: string, answer: string, after: Phase)
    requires InStep(conf, store, l) && Can(store, l, Reads)
    requires l.ToServer() == command && IsLine(command) && l.ToClient() == ""
    requires l.server.OnLine(command) == l.server.Reply(answer, after)
    ensures var l' := Do(conf, store, l, Reads);
            && l'.client == l.client && l'.posts == l.posts && l'.server == l.server.Reply(answer, after)
            && l'.ToServer() == "" && l'.ToClient() == answer
            && l'.consumed <= |l.client.hist.sent| && l'.received <= |l'.server.out|
  {
    assert command[..LineEnd(command)] == command;
    ServerAnswers(l, command, answer, after);
  }

  lemma ReadsLogin(conf: Conf, store: seq<Article>, l: Link)
    requires Fit(conf) && InStep(conf, store, l) && Can(store, l, Reads) && l.Now().Some? && OfConnecting(l.Now().value)
    ensures InStep(conf, store, Do(conf, store, l, Reads))
  {
    var t, l' := l.Now().value, Do(conf, store, l, Reads);
    assert LineEnd("") == 0;
    LoginLines(conf);
    if t.WritingUser? || t.AwaitUserReply? {
      ReadsCommand(conf, store, l, UserCommand(conf), SERVER_AUTH, WantPass);
    } else if t.WritingPass? || t.AwaitPassReply? {
      ReadsCommand(conf, store, l, PassCommand(conf), SERVER_AUTH_SUCCESS, Command);
    } else {
      assert false;
    }
    FiledSame(store, l, l');
  }

  lemma PostIsRead(s: Session)
    requires s.phase.Command?
    ensures s.OnLine(POST) == s.Reply(SERVER_SEND_ARTICLE, Receiving(""))
  {
    PostLine();
  }

  lemma PostIsOnItsWay(conf: Conf, store: seq<Article>, l: Link)
    requires InStep(conf, store, l) && Can(store, l, Reads)
    requires l.Now().Some? && (l.Now().value.WritingPost? || l.Now().value.AwaitPostReply?)
    ensures l.ToServer() == POST && l.ToClient() == "" && l.server.phase.Command?
  {
    assert LineEnd("") == 0;
  }

  lemma ReadsPost(conf: Conf, store: seq<Article>, l: Link)
    requires InStep(conf, store, l) && Can(store, l, Reads)
    requires l.Now().Some? && (l.Now().value.WritingPost? || l.Now().value.AwaitPostReply?)
    ensures InStep(conf, store, Do(conf, store, l, Reads))
  {
    PostIsOnItsWay(conf, store, l);
    PostLine();
    PostIsRead(l.server);
    ReadsCommand(conf, store, l, POST, SERVER_SEND_ARTICLE, Receiving(""));
    FiledSame(store, l, Do(conf, store, l, Reads));
  }

  lemma QuitIsRead(s: Session)
    requires s.phase.Command?
    ensures s.OnLine(QUIT) == s.Reply("", Closed)
  {
    QuitLine();
    assert s.out + "" == s.out;
  }

  lemma QuitIsOnItsWay(conf: Conf, store: seq<Article>, l: Link)
    requires InStep(conf, store, l) && Can(store, l, Reads) && (l.Now().None? || l.Now().value.WritingQuit?)
    ensures l.ToServer() == QUIT && l.ToClient() == "" && l.server.phase.Command?
  {
    assert LineEnd("") == 0;
  }

  lemma ReadsQuit(conf: Conf, store: seq<Article>, l: Link)
    requires InStep(conf, store, l) && Can(store, l, Reads) && (l.Now().None? || l.Now().value.WritingQuit?)
    ensures InStep(conf, store, Do(conf, store, l, Reads))
  {
    QuitIsOnItsWay(conf, store, l);
    QuitIsRead(l.server);
    QuitLine();
    ReadsCommand(conf, store, l, QUIT, "", Closed);
    FiledSame(store, l, Do(conf, store, l, Reads));
  }

  lemma ReadsKeeps(conf: Conf, store: seq<Article>, l: Link)
    requires Fit(conf) && InStep(conf, store, l) && Can(store, l, Reads)
    ensures InStep(conf, store, Do(conf, store, l, Reads))
  {
    assert LineEnd("") == 0;
    if l.Now().None? || l.Now().value.WritingQuit? {
      ReadsQuit(conf, store, l);
    } else if OfConnecting(l.Now().value) {
      ReadsLogin(conf, store, l);
    } else if l.Now().value.WritingPost? || l.Now().value.AwaitPostReply? {
      ReadsPost(conf, store, l);
    } else {
      ReadsArticleLine(conf, store, l);
    }
  }

  /** What a line of an article leaves to be read. */
  lemma RestIsPostable(up: string)
    requires Postable(up)
    ensures var e := LineEnd(up);
            && 2 <= e <= |up| && up == up[..e] + up[e..] && '\0' !in up[..e]
            && (if up[..e] == DOT_LINE then up[e..] == "" else Postable(up[e..]))
  {
    var e := LineEnd(up);
    assert '\0' !in up[..e] && '\0' !in up[e..];
    if up[..e] != DOT_LINE {
      assert ReadArticle(up[e..]).Some?;
      var r := ReadArticle(up[e..]).value;
      assert up[..e] + r.0 == up[..e] + up[e..];
      assert r.0 == (up[..e] + r.0)[e..] == up[e..];
    }
  }

  /** One more line of the article is filed, or its last. */
  lemma ReadsArticleLine(conf: Conf, store: seq<Article>, l: Link)
    requires InStep(conf, store, l) && Can(store, l, Reads)
    requires l.Now().Some? && (l.Now().value.WritingArticle? || l.Now().value.AwaitArticleReply?)
    ensures InStep(conf, store, Do(conf, store, l, Reads))
  {
    assert LineEnd("") == 0;
    RestIsPostable(l.ToServer());
    if l.ToServer()[..LineEnd(l.ToServer())] == DOT_LINE {
      FilesArticle(conf, store, l, Do(conf, store, l, Reads));
    } else {
      FilesLine(conf, store, l);
    }
  }

  lemma LineIsTaken(conf: Conf, store: seq<Article>, l: Link)
    requires Can(store, l, Reads) && l.consumed <= |l.client.hist.sent|
    ensures var up, l' := l.ToServer(), Do(conf, store, l, Reads);
            && l' == l.(server := l.server.OnLine(up[..LineEnd(up)]), consumed := l'.consumed)
            && l'.ToServer() == up[LineEnd(up)..] && l'.consumed <= |l.client.hist.sent|
  {
  }

  lemma FilesLine(conf: Conf, store: seq<Article>, l: Link)
    requires InStep(conf, store, l) && Can(store, l, Reads)
    requires l.Now().Some? && (l.Now().value.WritingArticle? || l.Now().value.AwaitArticleReply?)
    requires l.server.phase.Receiving? && Postable(l.ToServer()) && l.ToServer()[..LineEnd(l.ToServer())] != DOT_LINE
    ensures InStep(conf, store, Do(conf, store, l, Reads))
  {
    RestIsPostable(l.ToServer());
    OneMoreLine(conf, store, l);
    FiledSame(store, l, Do(conf, store, l, Reads));
  }

  /** The file of the server grows by a line that is no longer on its way. */
  lemma OneMoreLine(conf: Conf, store: seq<Article>, l: Link)
    requires Can(store, l, Reads) && l.consumed <= |l.client.hist.sent|
    requires l.server.phase.Receiving? && Postable(l.ToServer()) && l.ToServer()[..LineEnd(l.ToServer())] != DOT_LINE
    ensures var l' := Do(conf, store, l, Reads);
            && l' == l.(server := l.server.(phase := Receiving(l'.server.phase.current)), consumed := l'.consumed)
            && l'.server.phase.current + l'.ToServer() == l.server.phase.current + l.ToServer()
            && l'.ToServer() == l.ToServer()[LineEnd(l.ToServer())..] && l'.consumed <= |l.client.hist.sent|
  {
    var up := l.ToServer();
    var line := up[..LineEnd(up)];
    RestIsPostable(up);
    LineIsTaken(conf, store, l);
    assert l.server.OnLine(line) == l.server.(phase := Receiving(l.server.phase.current + line));
    Assoc(l.server.phase.current, line, up[LineEnd(up)..]);
  }

  lemma FilesArticle(conf: Conf, store: seq<Article>, l: Link, l': Link)
    requires InStep(conf, store, l) && Can(store, l, Reads) && l' == Do(conf, store, l, Reads)
    requires l.Now().Some? && (l.Now().value.WritingArticle? || l.Now().value.AwaitArticleReply?)
    requires l.server.phase.Receiving? && l.ToServer() == DOT_LINE
    ensures InStep(conf, store, l')
  {
    var w, n := WireOf(store, l.client.article), |l.posts|;
    assert IsLine(DOT_LINE) && DOT_LINE[..3] == DOT_LINE;
    assert l'.server == l.server.(stored := l.server.stored + [w]).Reply(SERVER_ARTICLE_POSTED, Command);
    assert l'.ToServer() == "" && l'.ToClient() == SERVER_ARTICLE_POSTED;
    assert l.posts[..n - 1] + [l.posts[n - 1]] == l.posts[..n];
    assert WiresOf(store, l.posts[..n]) == WiresOf(store, l.posts[..n - 1]) + [w];
  }

  lemma ShakesKeeps(conf: Conf, store: seq<Article>, l: Link)
    requires InStep(conf, store, l) && Can(store, l, Shakes)
    ensures InStep(conf, store, Do(conf, store, l, Shakes))
  {
    var l' := Do(conf, store, l, Shakes);
    assert l'.server == l.server.Reply(SERVER_WELCOME, WantUser);
    ReplySent(l, SERVER_WELCOME, WantUser);
    assert Greeted(l');
    FiledSame(store, l, l');
  }

  lemma ReplySent(l: Link, answer: string, after: Phase)
    requires l.received <= |l.server.out| && l.ToClient() == ""
    ensures var l' := l.(server := l.server.Reply(answer, after));
            l'.ToClient() == answer && l'.ToServer() == l.ToServer() && l'.received <= |l'.server.out|
  {
  }

  // ---- The client moves -------------------------------------------------------------------------------------

  /** The client has heard the whole answer, and may send something. */
  lemma Hearing(conf: Conf, store: seq<Article>, l: Link, ev: Event, answer: string) returns (d: Conn)
    requires InStep(conf, store, l) && Can(store, l, Completes(ev))
    requires l.Now().Some? && l.client.Awaits(l.Now().value)
    requires IsLine(answer) && (l.ToClient() == answer || l.ToClient() == "")
    ensures ev == Data(answer) && l.ToClient() == answer
    ensures Do(conf, store, l, Completes(ev)).client == d.Hears(l.Now().value, answer, conf, store)
    ensures Do(conf, store, l, Completes(ev)).ToClient() == ""
    ensures Do(conf, store, l, Completes(ev)).received <= |l.server.out|
    ensures d == l.client.(pending := [], hist := l.client.hist.(ops := d.hist.ops))
  {
    var k := l.client;
    assert TextOf(k.readbuf) + ev.arrived == ev.arrived;
    WholeAnswer(ev.arrived, l.ToClient());
    assert ev.arrived == answer;
    d := Heard(k, answer, conf, store);
  }

  lemma SentMore(l: Link, k: Conn, bytes: string)
    requires l.consumed <= |l.client.hist.sent| && k.hist.sent == l.client.hist.sent + bytes
    ensures l.(client := k).ToServer() == l.ToServer() + bytes && l.consumed <= |k.hist.sent|
  {
  }

  /** The client's side of an answer heard: what it schedules, and what it sends. */
  lemma AnswerHeard(conf: Conf, store: seq<Article>, l: Link, ev: Event, answer: string, next: Task, sent: string)
    requires InStep(conf, store, l) && Can(store, l, Completes(ev))
    requires l.Now().Some? && l.client.Awaits(l.Now().value)
    requires IsLine(answer) && (l.ToClient() == answer || l.ToClient() == "")
    requires var k' := l.client.(pending := []).Hears(l.Now().value, answer, conf, store);
             && k'.pending == [next] && k'.hist.sent == l.client.hist.sent + sent
             && (next.WritingArticle? ==> k'.article == l.client.article)
    ensures var l' := Do(conf, store, l, Completes(ev));
            && l.ToClient() == answer && l' == l.(client := l'.client, received := l'.received)
            && l'.ToServer() == l.ToServer() + sent && l'.ToClient() == ""
            && l'.client.pending == [next] && (next.WritingArticle? ==> l'.client.article == l.client.article)
            && Wf(l'.client) && Held(l'.client) == Held(l.client) && l'.client.readbuf == []
            && l'.received <= |l.server.out| && l'.consumed <= |l'.client.hist.sent|
  {
    var l' := Do(conf, store, l, Completes(ev));
    CompleteKeepsWf(l.client, ev, conf, store);
    var d := Hearing(conf, store, l, ev, answer);
    SameSent(l.client.(pending := []), d, l.Now().value, answer, conf, store);
    SentMore(l, l'.client, sent);
  }

  /** What a callback schedules and sends does not depend on the history. */
  lemma SameSent(k: Conn, d: Conn, t: Task, line: string, conf: Conf, store: seq<Article>)
    requires k.Awaits(t) && d == k.(hist := k.hist.(ops := d.hist.ops))
    ensures var k1, d1 := k.Hears(t, line, conf, store), d.Hears(t, line, conf, store);
            && d1.pending == k1.pending && d1.article == k1.article && d1.hist.sent == k1.hist.sent
            && d1.readbuf == k1.readbuf == k.readbuf
  {
  }

  lemma WelcomeKeeps(conf: Conf, store: seq<Article>, l: Link, ev: Event)
    requires InStep(conf, store, l) && Can(store, l, Completes(ev)) && l.Now() == Some(AwaitWelcome)
    ensures InStep(conf, store, Do(conf, store, l, Completes(ev)))
  {
    WelcomeLine();
    AnswerHeard(conf, store, l, ev, SERVER_WELCOME, WritingUser, UserCommand(conf));
    assert "" + UserCommand(conf) == UserCommand(conf);
    FiledSame(store, l, Do(conf, store, l, Completes(ev)));
  }

  lemma UserReplyKeeps(conf: Conf, store: seq<Article>, l: Link, ev: Event)
    requires InStep(conf, store, l) && Can(store, l, Completes(ev)) && l.Now() == Some(AwaitUserReply)
    ensures InStep(conf, store, Do(conf, store, l, Completes(ev)))
  {
    AuthLines();
    AnswerHeard(conf, store, l, ev, SERVER_AUTH, WritingPass, PassCommand(conf));
    assert "" + PassCommand(conf) == PassCommand(conf);
    FiledSame(store, l, Do(conf, store, l, Completes(ev)));
  }

  /** The answer to the password makes the connection ready; nothing more is sent. */
  lemma PassAccepted(k: Conn, conf: Conf, store: seq<Article>)
    requires k.pending == []
    ensures var k' := k.Hears(AwaitPassReply, SERVER_AUTH_SUCCESS, conf, store);
            k'.pending == [ConnectDone(ConnectSuccess)] && k'.hist.sent == k.hist.sent + ""
  {
    AuthLines();
  }

  lemma PassReplyKeeps(conf: Conf, store: seq<Article>, l: Link, ev: Event)
    requires InStep(conf, store, l) && Can(store, l, Completes(ev)) && l.Now() == Some(AwaitPassReply)
    ensures InStep(conf, store, Do(conf, store, l, Completes(ev)))
  {
    AuthLines();
    PassAccepted(l.client.(pending := []), conf, store);
    AnswerHeard(conf, store, l, ev, SERVER_AUTH_SUCCESS, ConnectDone(ConnectSuccess), "");
    FiledSame(store, l, Do(conf, store, l, Completes(ev)));
  }

  lemma PostReplyKeeps(conf: Conf, store: seq<Article>, l: Link, ev: Event)
    requires InStep(conf, store, l) && Can(store, l, Completes(ev)) && AllPostable(store)
    requires l.Now().Some? && l.Now().value.AwaitPostReply?
    ensures InStep(conf, store, Do(conf, store, l, Completes(ev)))
  {
    var l', w := Do(conf, store, l, Completes(ev)), WireOf(store, l.client.article);
    PostLines();
    assert l.client.(pending := []).Hears(AwaitPostReply, SERVER_SEND_ARTICLE, conf, store) == l.client.(pending := []).SendArticle(store);
    AnswerHeard(conf, store, l, ev, SERVER_SEND_ARTICLE, WritingArticle, w);
    ArticleSent(store, l, l');
  }

  lemma ArticleSent(store: seq<Article>, l: Link, l': Link)
    requires Filed(store, l) && l.Now() == Some(AwaitPostReply) && l.server.phase == Receiving("") && l.ToServer() == ""
    requires AllPostable(store) && Held(l.client) == l.client.article && l.client.article.Some?
    requires l' == l.(client := l'.client, received := l'.received) && l'.Now() == Some(WritingArticle)
    requires l'.ToServer() == l.ToServer() + WireOf(store, l.client.article) && l'.ToClient() == ""
    requires Held(l'.client) == Held(l.client)
    ensures Transferring(l', WireOf(store, l.client.article)) && Filed(store, l')
  {
    var w := WireOf(store, l.client.article);
    assert "" + w == w && w == Wire(store[l.client.article.value]);
    FiledSame(store, l, l');
  }

  lemma VerdictHeard(conf: Conf, store: seq<Article>, l: Link, ev: Event)
    requires InStep(conf, store, l) && Can(store, l, Completes(ev)) && l.Now() == Some(AwaitArticleReply)
    ensures var l' := Do(conf, store, l, Completes(ev));
            && l.ToClient() == SERVER_ARTICLE_POSTED && l' == l.(client := l'.client, received := l'.received)
            && l'.ToServer() == l.ToServer() && l'.ToClient() == ""
            && l'.client.pending == [PostDone(l.client.article, PostSuccess)]
            && Wf(l'.client) && Held(l'.client) == Held(l.client) && l'.client.readbuf == []
            && l'.received <= |l.server.out| && l'.consumed <= |l'.client.hist.sent|
  {
    var k := l.client.(pending := []);
    PostLines();
    assert k.Hears(AwaitArticleReply, SERVER_ARTICLE_POSTED, conf, store) == k.PostCallback(PostSuccess);
    assert k.hist.sent + "" == k.hist.sent && l.ToServer() + "" == l.ToServer();
    assert k.PostCallback(PostSuccess).pending == [PostDone(l.client.article, PostSuccess)];
    AnswerHeard(conf, store, l, ev, SERVER_ARTICLE_POSTED, PostDone(l.client.article, PostSuccess), "");
  }

  lemma VerdictKeeps(conf: Conf, store: seq<Article>, l: Link, ev: Event)
    requires InStep(conf, store, l) && Can(store, l, Completes(ev)) && l.Now() == Some(AwaitArticleReply)
    ensures InStep(conf, store, Do(conf, store, l, Completes(ev)))
  {
    VerdictHeard(conf, store, l, ev);
    assert l.server.phase.Command? && Unstored(l) == 0 by {
      PostLines();
    }
    FiledSame(store, l, Do(conf, store, l, Completes(ev)));
  }

  lemma RunsPost(conf: Conf, store: seq<Article>, l: Link)
    requires InStep(conf, store, l) && Can(store, l, Completes(Ok)) && l.Now() == Some(RunPost)
    ensures InStep(conf, store, Do(conf, store, l, Completes(Ok)))
  {
    var k, l' := l.client, Do(conf, store, l, Completes(Ok));
    CompleteKeepsWf(k, Ok, conf, store);
    assert l'.client == k.Done(0).(state := Busy).Send(POST, WritingPost) && k.Done(0).pending == [];
    SentMore(l, l'.client, POST);
    assert "" + POST == POST;
    FiledSame(store, l, l');
  }

  lemma RunsConnect(conf: Conf, store: seq<Article>, l: Link)
    requires InStep(conf, store, l) && Can(store, l, Completes(Ok)) && l.Now() == Some(RunConnect)
    ensures InStep(conf, store, Do(conf, store, l, Completes(Ok)))
  {
    var k, l' := l.client, Do(conf, store, l, Completes(Ok));
    CompleteKeepsWf(k, Ok, conf, store);
    assert k.Done(0).pending == [] && l'.client.pending == [Resolving] && l'.client.hist.sent == "";
    FiledSame(store, l, l');
  }

  /** The client's side of a write, a resolution, a connect or a handshake that is over. */
  lemma WriteDone(conf: Conf, store: seq<Article>, l: Link)
    requires InStep(conf, store, l) && Can(store, l, Completes(Ok))
    requires l.Now().Some? && !l.client.Runs(l.Now().value) && !l.client.Awaits(l.Now().value)
    ensures var k, l' := l.client, Do(conf, store, l, Completes(Ok));
            && l' == l.(client := l'.client)
            && l'.client.hist.sent == k.hist.sent && l'.client.article == k.article && l'.client.readbuf == k.readbuf
            && l'.ToServer() == l.ToServer() && l'.ToClient() == l.ToClient()
            && Wf(l'.client) && Held(l'.client) == Held(k)
            && if l.Now().value.WritingQuit? then l'.client.pending == [] && l'.client.state == Disconnected
               else l'.client.pending == k.(pending := []).Succeeds(l.Now().value, conf).pending
  {
    var k := l.client;
    CompleteKeepsWf(k, Ok, conf, store);
    assert k.Done(0).pending == [];
  }

  lemma WritesKeeps(conf: Conf, store: seq<Article>, l: Link)
    requires Fit(conf) && InStep(conf, store, l) && Can(store, l, Completes(Ok))
    requires l.Now().Some? && !l.client.Runs(l.Now().value) && !l.client.Awaits(l.Now().value)
    ensures InStep(conf, store, Do(conf, store, l, Completes(Ok)))
  {
    var t, l' := l.Now().value, Do(conf, store, l, Completes(Ok));
    WriteDone(conf, store, l);
    FiledSame(store, l, l');
    match t {
      case Resolving =>
      case Dialing =>
      case Handshaking =>
      case WritingUser =>
      case WritingPass =>
      case WritingPost =>
      case WritingArticle =>
      case WritingQuit =>
    }
  }

  lemma HandlesKeeps(conf: Conf, store: seq<Article>, l: Link)
    requires InStep(conf, store, l) && Can(store, l, Handles)
    ensures InStep(conf, store, Do(conf, store, l, Handles))
  {
    var k, l' := l.client, Do(conf, store, l, Handles);
    assert l'.client.pending == [] && l'.client.state == Authenticated;
    assert Held(l'.client).None?;
    assert l'.ToServer() == l.ToServer() && l'.ToClient() == l.ToClient();
  }

  lemma PostsKeeps(conf: Conf, store: seq<Article>, l: Link, art: nat)
    requires InStep(conf, store, l) && Can(store, l, Posts(art))
    ensures InStep(conf, store, Do(conf, store, l, Posts(art)))
  {
    var l' := Do(conf, store, l, Posts(art));
    RequestsKeepWf(l.client, art, "");
    assert l'.posts[..|l'.posts| - 1] == l.posts == l.posts[..|l.posts|];
    assert l'.ToServer() == l.ToServer() && l'.ToClient() == l.ToClient();
  }

  lemma QuitsKeeps(conf: Conf, store: seq<Article>, l: Link)
    requires InStep(conf, store, l) && Can(store, l, Quits)
    ensures InStep(conf, store, Do(conf, store, l, Quits))
  {
    var l' := Do(conf, store, l, Quits);
    RequestsKeepWf(l.client, 0, "");
    SentMore(l, l'.client, QUIT);
    assert "" + QUIT == QUIT;
    FiledSame(store, l, l');
  }

  lemma MoveKeeps(conf: Conf, store: seq<Article>, l: Link, m: Move)
    requires Fit(conf) && AllPostable(store) && InStep(conf, store, l) && Can(store, l, m)
    ensures InStep(conf, store, Do(conf, store, l, m))
  {
    match m {
      case Completes(ev) =>
        var t := l.client.pending[0];
        if t.RunConnect? {
          RunsConnect(conf, store, l);
        } else if t.RunPost? {
          RunsPost(conf, store, l);
        } else if !l.client.Awaits(t) {
          WritesKeeps(conf, store, l);
        } else if t.AwaitPostReply? {
          PostReplyKeeps(conf, store, l, ev);
        } else if t.AwaitArticleReply? {
          VerdictKeeps(conf, store, l, ev);
        } else if t.AwaitWelcome? {
          WelcomeKeeps(conf, store, l, ev);
        } else if t.AwaitUserReply? {
          UserReplyKeeps(conf, store, l, ev);
        } else {
          PassReplyKeeps(conf, store, l, ev);
        }
      case Shakes => ShakesKeeps(conf, store, l);
      case Reads => ReadsKeeps(conf, store, l);
      case Handles => HandlesKeeps(conf, store, l);
      case Posts(art) => PostsKeeps(conf, store, l, art);
      case Quits => QuitsKeeps(conf, store, l);
    }
  }

  /** Matching protocol positions in every reachable state. */
  lemma {:induction false} InStepAlways(conf: Conf, store: seq<Article>, moves: seq<Move>)
    requires Fit(conf) && AllPostable(store) && LegalMoves(conf, store, moves)
    ensures InStep(conf, store, AfterMoves(conf, store, moves))
    decreases |moves|
  {
    if moves == [] {
      assert DIALED.client.pending == [RunConnect];
    } else {
      var before := moves[..|moves| - 1];
      InStepAlways(conf, store, before);
      MoveKeeps(conf, store, AfterMoves(conf, store, before), moves[|moves| - 1]);
    }
  }

  /** In matching positions everything told but the last article is stored, and that one too unless it is under
      way; and the handler that is due reports success. */
  lemma StoredInStep(conf: Conf, store: seq<Article>, l: Link)
    requires InStep(conf, store, l)
    ensures |l.posts| - 1 <= |l.server.stored| <= |l.posts|
    ensures l.server.stored == WiresOf(store, l.posts[..|l.server.stored|])
  {
  }

  lemma RestIsStored(conf: Conf, store: seq<Article>, l: Link)
    requires InStep(conf, store, l)
    requires l.client.pending == [] || (|l.client.pending| == 1 && l.client.Calls(l.client.pending[0]))
    ensures l.server.stored == WiresOf(store, l.posts)
  {
    assert l.posts[..|l.posts|] == l.posts;
  }

  lemma HandlerSucceeds(conf: Conf, store: seq<Article>, l: Link)
    requires InStep(conf, store, l) && l.Now().Some?
    ensures l.Now().value.PostDone? ==>
              l.posts != [] && l.Now() == Some(PostDone(Some(l.posts[|l.posts| - 1]), PostSuccess))
    ensures l.Now().value.ConnectDone? ==> l.Now() == Some(ConnectDone(ConnectSuccess))
  {
  }

  /** The server never reports a violation; its files are the wire bytes of the articles told, in order, all of
      them whenever the client is not in the middle of a POST; the client reports nothing but success. */
  ghost predicate StoresTold(store: seq<Article>, l: Link)
  {
    && !l.server.violated
    && |l.posts| - 1 <= |l.server.stored| <= |l.posts|
    && l.server.stored == WiresOf(store, l.posts[..|l.server.stored|])
    && (l.client.pending == [] || (|l.client.pending| == 1 && l.client.Calls(l.client.pending[0])) ==>
          l.server.stored == WiresOf(store, l.posts))
    && (l.Now().Some? && l.Now().value.PostDone? ==>
          l.posts != [] && l.Now() == Some(PostDone(Some(l.posts[|l.posts| - 1]), PostSuccess)))
    && (l.Now().Some? && l.Now().value.ConnectDone? ==> l.Now() == Some(ConnectDone(ConnectSuccess)))
  }

  lemma InStepStores(conf: Conf, store: seq<Article>, l: Link)
    requires InStep(conf, store, l)
    ensures StoresTold(store, l)
  {
    StoredInStep(conf, store, l);
    if l.client.pending == [] || (|l.client.pending| == 1 && l.client.Calls(l.client.pending[0])) {
      RestIsStored(conf, store, l);
    }
    if l.Now().Some? {
      HandlerSucceeds(conf, store, l);
    }
  }

  /** In every session without errors, however the two sides interleave and the bytes are cut, the server stores
      exactly what the client was told to post. */
  lemma {:induction false} ServerStoresArticles(conf: Conf, store: seq<Article>, moves: seq<Move>)
    requires Fit(conf) && AllPostable(store) && LegalMoves(conf, store, moves)
    ensures StoresTold(store, AfterMoves(conf, store, moves))
  {
    InStepAlways(conf, store, moves);
    InStepStores(conf, store, AfterMoves(conf, store, moves));
  }
}
