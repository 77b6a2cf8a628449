/** src/nntp/connection.{hpp,cc} as an object: every method does to the fields what ConnModel says. */
module Connection {
  import opened Text
  import opened Message
  import opened ConnModel

  class Connection {
    const conf: Conf
    var state: ConnState
    var article: Option<nat>
    var msgid: string
    var readbuf: seq<Rx>
    var sendParts: string
    /** What the connection has scheduled with the io service. */
    var pending: seq<Task>
    /** Not in the source: the record of what was accepted, answered and reported. */
    var hist: History

    ghost function Abs(): Conn
      reads this
    {
      Conn(state, article, msgid, readbuf, sendParts, pending, hist)
    }

    constructor (conf: Conf)
      ensures Abs() == FRESH && this.conf == conf
    {
      this.conf := conf;
      state, article, msgid := Disconnected, None, "";
      readbuf, sendParts, pending := [], "", [];
      hist := History(0, [], [], 0, "");
    }

    // ---- The io service and the record --------------------------------------------------------------

    /** get_io_service().post(...), or the start of a socket operation. */
    method Schedule(t: Task)
      modifies this`pending
      ensures Abs() == old(Abs()).Schedule(t)
    {
      pending := pending + [t];
    }

    /** The write wrapper: the bytes go to the socket. */
    method Write(bytes: string, t: Task)
      modifies this`pending, this`hist
      ensures Abs() == old(Abs()).Send(bytes, t)
    {
      hist := hist.(sent := hist.sent + bytes);
      Schedule(t);
    }

    method Accept(kind: Kind, session: nat)
      modifies this`hist
      ensures Abs() == old(Abs()).Accept(kind, session)
    {
      hist := hist.(ops := hist.ops + [Op(kind, session, [], None)]);
    }

    method Fault()
      modifies this`hist
      ensures Abs() == old(Abs()).Fault()
    {
      hist := hist.(faults := hist.faults + 1);
    }

    method Note(s: Seen)
      modifies this`hist
      ensures Abs() == old(Abs()).Note(s)
    {
      if hist.ops != [] {
        var n := |hist.ops| - 1;
        hist := hist.(ops := hist.ops[n := hist.ops[n].(seen := hist.ops[n].seen + [s])]);
      }
    }

    method Report(r: Result)
      modifies this`hist
      ensures Abs() == old(Abs()).Report(r)
    {
      if hist.ops != [] {
        var n := |hist.ops| - 1;
        hist := hist.(ops := hist.ops[n := hist.ops[n].(result := Some(r))]);
      }
    }

    // ---- Requests ---------------------------------------------------------------------------------------

    method AsyncConnect()
      modifies this
      ensures Abs() == old(Abs()).AsyncConnect()
    {
      if state == Disconnected {
        Accept(Connect, hist.session + 1);
        Schedule(RunConnect);
      }
    }

    method AsyncPost(message: nat) returns (accepted: bool)
      modifies this
      ensures Abs() == old(Abs()).AsyncPost(message)
      ensures accepted == (old(state) == Authenticated)
    {
      if state != Authenticated {
        Fault();
        return false;
      }
      if article.Some? || pending != [] {
        Fault();
      }
      article := Some(message);
      Accept(Post(message), hist.session);
      Schedule(RunPost);
      return true;
    }

    method AsyncStat(mid: string) returns (accepted: bool)
      modifies this
      ensures Abs() == old(Abs()).AsyncStat(mid)
      ensures accepted == (old(state) == Authenticated)
    {
      if state != Authenticated {
        Fault();
        return false;
      }
      if pending != [] {
        Fault();
      }
      msgid := mid;
      Accept(Stat(mid), hist.session);
      Schedule(RunStat);
      return true;
    }

    method Close()
      modifies this
      ensures Abs() == old(Abs()).Close()
    {
      if state == Disconnected {
        return;
      }
      var dataLeft := |readbuf|;
      if dataLeft > 0 {
        readbuf := readbuf[dataLeft..];
      }
      state := Disconnected;
    }

    method AsyncGracefulDisconnect()
      modifies this
      ensures Abs() == old(Abs()).AsyncGracefulDisconnect()
    {
      if state == Authenticated {
        state := Busy;
        Write(QUIT, WritingQuit);
      } else {
        Fault();
      }
    }

    // ---- Callbacks to the owner ---------------------------------------------------------------------------

    method ConnectHandlerCallback(result: ConnectResult)
      modifies this
      ensures Abs() == old(Abs()).ConnectCallback(result)
    {
      Report(OfConnect(result));
      Schedule(ConnectDone(result));
    }

    method PostHandlerCallback(result: PostResult)
      modifies this
      ensures Abs() == old(Abs()).PostCallback(result)
    {
      state := Authenticated;
      var articleCopy := article;
      Report(OfPost(result));
      Schedule(PostDone(articleCopy, result));
      article := None;
    }

    method StatHandlerCallback(result: StatResult)
      modifies this
      ensures Abs() == old(Abs()).StatCallback(result)
    {
      state := Authenticated;
      var msgidCopy := msgid;
      Report(OfStat(result));
      Schedule(StatDone(msgidCopy, result));
      msgid := "";
    }

    // ---- The steps of an operation --------------------------------------------------------------------------

    method DoConnect()
      modifies this
      ensures Abs() == old(Abs()).Run(RunConnect)
    {
      state := Connecting;
      hist := hist.(session := hist.session + 1, sent := "");
      Schedule(Resolving);
    }

    method DoPost()
      modifies this
      ensures Abs() == old(Abs()).Run(RunPost)
    {
      state := Busy;
      Write(POST, WritingPost);
    }

    method DoStat()
      modifies this
      ensures Abs() == old(Abs()).Run(RunStat)
    {
      state := Busy;
      Write(StatCommand(msgid), WritingStat);
    }

    method SendAuthinfoUsername()
      modifies this
      ensures Abs() == old(Abs()).Send(UserCommand(conf), WritingUser)
    {
      Write(("AUTHINFO USER " + conf.username) + CRLF, WritingUser);
    }

    method SendAuthinfoPassword()
      modifies this
      ensures Abs() == old(Abs()).Send(PassCommand(conf), WritingPass)
    {
      Write(("AUTHINFO PASS " + conf.password) + CRLF, WritingPass);
    }

    method CheckAuthinfoResult(line: string)
      requires line != ""
      modifies this
      ensures Abs() == old(Abs()).CheckAuthinfoResult(line)
    {
      if line[0] == '2' {
        state := Authenticated;
        ConnectHandlerCallback(ConnectSuccess);
      } else {
        ConnectHandlerCallback(InvalidCredentials);
      }
    }

    /** The buffers of m_send_parts, in order: header, empty line, payload pieces, terminator. */
    static method CollectParts(a: Article) returns (parts: string)
      ensures parts == Wire(a)
    {
      var postHeader := WriteHeader(a.header);
      parts := postHeader;
      parts := parts + CRLF;
      ghost var head := parts;
      for i := 0 to |a.payload|
        invariant parts + Concat(a.payload[i..]) == head + Concat(a.payload)
      {
        assert a.payload[i..][0] == a.payload[i] && a.payload[i..][1..] == a.payload[i + 1..];
        Assoc(parts, a.payload[i], Concat(a.payload[i + 1..]));
        parts := parts + a.payload[i];
      }
      assert parts + "" == parts;
      parts := parts + MESSAGE_TERM;
      PartsOfWire(a);
    }

    method SendArticle(store: seq<Article>)
      modifies this
      ensures Abs() == old(Abs()).SendArticle(store)
    {
      sendParts := "";
      if article.Some? && article.value < |store| {
        sendParts := CollectParts(store[article.value]);
      }
      Write(sendParts, WritingArticle);
    }

    // ---- Completions ------------------------------------------------------------------------------------------

    /** The callbacks with an error code. */
    method OnError(t: Task)
      requires !Abs().Runs(t) && !Abs().Calls(t)
      modifies this
      ensures Abs() == old(Abs()).Fails(t)
    {
      if t.WritingPost? || t.AwaitPostReply? || t.WritingArticle? || t.AwaitArticleReply? {
        PostHandlerCallback(PostConnectionError);
      } else if t.WritingStat? || t.AwaitStatReply? {
        StatHandlerCallback(StatConnectionError);
      } else if t.WritingQuit? {
        Close();
      } else {
        ConnectHandlerCallback(FatalConnectError);
      }
    }

    /** The callbacks of resolving, connecting, the handshake and writes: the next operation starts. */
    method OnSuccess(t: Task)
      requires !Abs().Runs(t) && !Abs().Calls(t) && !Abs().Awaits(t)
      modifies this
      ensures Abs() == old(Abs()).Succeeds(t, conf)
    {
      match t {
        case Resolving => Schedule(Dialing);
        case Dialing =>
          if conf.tls {
            Schedule(Handshaking);
          } else {
            Schedule(AwaitWelcome);
          }
        case Handshaking => Schedule(AwaitWelcome);
        case WritingUser => Schedule(AwaitUserReply);
        case WritingPass => Schedule(AwaitPassReply);
        case WritingPost => Schedule(AwaitPostReply);
        case WritingArticle => Schedule(AwaitArticleReply);
        case WritingStat => Schedule(AwaitStatReply);
        case WritingQuit => Close();
      }
    }

    /** The callbacks of read_line. */
    method OnLine(t: Task, line: string, store: seq<Article>)
      requires Abs().Awaits(t) && line != ""
      modifies this
      ensures Abs() == old(Abs()).Hears(t, line, conf, store)
    {
      match t {
        case AwaitWelcome =>
          if line[0] != '2' {
            ConnectHandlerCallback(FatalConnectError);
          } else {
            SendAuthinfoUsername();
          }
        case AwaitUserReply =>
          if "381" <= line {
            SendAuthinfoPassword();
          } else {
            CheckAuthinfoResult(line);
          }
        case AwaitPassReply => CheckAuthinfoResult(line);
        case AwaitPostReply =>
          if line[0] == '4' {
            PostHandlerCallback(PostingNotPermitted);
          } else {
            SendArticle(store);
          }
        case AwaitArticleReply =>
          if line[0] == '2' {
            PostHandlerCallback(PostSuccess);
          } else {
            PostHandlerCallback(PostFailure);
          }
        case AwaitStatReply =>
          if line[0] == '2' {
            StatHandlerCallback(ArticleExists);
          } else {
            StatHandlerCallback(InvalidArticle);
          }
      }
    }

    /** async_read_line: the bytes that arrive are appended, and the first line, if there is one, is taken. */
    method TakeLine(arrived: string) returns (line: Option<seq<Rx>>)
      modifies this`readbuf
      ensures var b := old(Abs()).Receive(arrived).readbuf;
              var e := LineEnd(TextOf(b));
              && line == (if e == 0 then None else Some(b[..e]))
              && Abs() == old(Abs()).(readbuf := b[e..])
    {
      readbuf := readbuf + Tagged(arrived, hist.session);
      var bytesRead := LineEnd(TextOf(readbuf));
      if bytesRead == 0 {
        line := None;
      } else {
        line := Some(readbuf[..bytesRead]);
        readbuf := readbuf[bytesRead..];
      }
    }

    /** do_connect, do_post, do_stat, posted. */
    method RunPosted(t: Task)
      requires Abs().Runs(t)
      modifies this
      ensures Abs() == old(Abs()).Run(t)
    {
      match t {
        case RunConnect => DoConnect();
        case RunPost => DoPost();
        case RunStat => DoStat();
      }
    }

    /** The io service completes pending[i]. */
    method Complete(i: nat, ev: Event, store: seq<Article>)
      requires Abs().CanComplete(i, ev)
      modifies this
      ensures Abs() == old(Abs()).Complete(i, ev, conf, store)
    {
      var t := pending[i];
      ghost var k := Abs();
      pending := RemoveAt(pending, i);
      if t.RunConnect? || t.RunPost? || t.RunStat? {
        RunPosted(t);
      } else if t.WritingQuit? {
        Close();
      } else if ev.Ok? {
        Note(Went);
        OnSuccess(t);
      } else if ev.Err? {
        readbuf := readbuf + Tagged(ev.arrived, hist.session);
        Note(Failed);
        OnError(t);
      } else {
        assert TextOf(k.Receive(ev.arrived).readbuf) == TextOf(k.readbuf) + ev.arrived;
        var line := TakeLine(ev.arrived);
        Note(Reply(line.value));
        OnLine(t, TextOf(line.value), store);
      }
    }

    /** The io service calls the handler posted as pending[i]. */
    method Deliver(i: nat)
      requires i < |pending|
      modifies this
      ensures Abs() == old(Abs()).Deliver(i)
    {
      var t := pending[i];
      pending := RemoveAt(pending, i);
      hist := hist.(called := hist.called + [t]);
    }
  }

  lemma PartsOfWire(a: Article)
    ensures ((HeaderText(a.header) + CRLF) + Concat(a.payload)) + MESSAGE_TERM == Wire(a)
  {
    WireIsFrontAndDot(a);
    assert MESSAGE_TERM == CRLF + DOT_LINE;
  }
}
