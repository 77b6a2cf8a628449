/** misc/dummy_usenet/dummy_server.cc: one session of the peer, line by line. */
module DummyServer {
  import opened Text
  import opened Message
  import LineReader

  const SERVER_WELCOME := ("200 Some Generic Welcome " + "Message (Posting Allowed)") + CRLF
  const SERVER_AUTH := "381 PASS required" + CRLF
  const SERVER_AUTH_SUCCESS := "281 Posting allowed" + CRLF
  const SERVER_SEND_ARTICLE := "381 Send article to be posted" + CRLF
  const SERVER_ARTICLE_POSTED := "200 Article posted" + CRLF

  /** What the session waits for next; `Closed` when it has ended. */
  datatype Phase = Handshake | WantUser | WantPass | Command | Receiving(current: string) | Closed

  /** `out` is everything written to the client, `stored` the contents of the files written, `violated` that
      a protocol violation or a NUL byte was reported. */
  datatype Session = Session(phase: Phase, out: string, stored: seq<string>, violated: bool)
  {
    function Reply(line: string, phase: Phase): Session
    {
      this.(out := out + line, phase := phase)
    }

    function Violation(): Session
    {
      this.(violated := true, phase := Closed)
    }

    function Welcome(): Session
    {
      Reply(SERVER_WELCOME, WantUser)
    }

    predicate Reading()
    {
      phase.WantUser? || phase.WantPass? || phase.Command? || phase.Receiving?
    }

    function OnLine(line: string): Session
      requires Reading()
    {
      match phase
      case WantUser => if "AUTHINFO USER" <= line then Reply(SERVER_AUTH, WantPass) else Violation()
      case WantPass => if "AUTHINFO PASS" <= line then Reply(SERVER_AUTH_SUCCESS, Command) else Violation()
      case Command =>
        if "POST" <= line then Reply(SERVER_SEND_ARTICLE, Receiving(""))
        else if "QUIT" <= line then this.(phase := Closed)
        else this
      case Receiving(current) =>
        if '\0' in line then Violation()
        else if line != DOT_LINE then this.(phase := Receiving(current + line))
        else this.(stored := stored + [current + line]).Reply(SERVER_ARTICLE_POSTED, Command)
    }

    /** The session on all complete lines of its input; a read that finds no line ends it. */
    function Serve(input: string): Session
      decreases |input|
    {
      var e := LineEnd(input);
      if !Reading() || e == 0 then this.(phase := Closed) else OnLine(input[..e]).Serve(input[e..])
    }
  }

  const ACCEPTED := Session(Handshake, "", [], false)

  // ---- usenet_session -----------------------------------------------------------------------------------

  /** read_line; None when the input ends first, where read_until throws. */
  method ReadLine(readbuf: string) returns (line: Option<string>, rest: string)
    ensures var e := LineEnd(readbuf);
            if e == 0 then line == None && rest == readbuf else line == Some(readbuf[..e]) && rest == readbuf[e..]
    ensures LineReader.Read(line, rest, []) == LineReader.ReadLine(readbuf, [])
  {
    var bytesRead := LineEnd(readbuf);
    if bytesRead == 0 {
      return None, readbuf;
    }
    return Some(readbuf[..bytesRead]), readbuf[bytesRead..];
  }

  /** The scan of one line for NUL bytes. */
  method FindNul(line: string) returns (found: bool)
    ensures found == ('\0' in line)
  {
    for i := 0 to |line|
      invariant '\0' !in line[..i]
    {
      if line[i] == '\0' {
        return true;
      }
    }
    assert line[..|line|] == line;
    return false;
  }

  /** The do-while loop: lines go to the file up to and including the lone dot. `ended` tells that the
      session is over before that. */
  method ReceiveArticle(s: Session, input: string) returns (s': Session, ended: bool, rest: string)
    requires s.phase.Command?
    ensures |rest| <= |input|
    ensures ended ==> s' == s.(phase := Receiving("")).Serve(input)
    ensures !ended ==> s'.phase.Command? && s.(phase := Receiving("")).Serve(input) == s'.Serve(rest)
  {
    var outfile := "";
    rest := input;
    var done := false;
    while !done
      invariant |rest| <= |input|
      invariant !done ==> s.(phase := Receiving("")).Serve(input) == s.(phase := Receiving(outfile)).Serve(rest)
      invariant done ==>
        s.(phase := Receiving("")).Serve(input)
        == s.(stored := s.stored + [outfile]).Reply(SERVER_ARTICLE_POSTED, Command).Serve(rest)
      decreases |rest|, !done
    {
      var line;
      line, rest := ReadLine(rest);
      if line.None? {
        return s.(phase := Closed), true, rest;
      }
      var nul := FindNul(line.value);
      if nul {
        return s.Violation(), true, rest;
      }
      outfile := outfile + line.value;
      done := line.value == ".\r\n";
    }
    s' := s.(stored := s.stored + [outfile]).Reply(SERVER_ARTICLE_POSTED, Command);
    ended := false;
  }

  /** One session, given all bytes the client sends. */
  method UsenetSession(input: string) returns (s: Session)
    ensures s == ACCEPTED.Welcome().Serve(input)
  {
    s := ACCEPTED.Welcome();
    var line, rest := ReadLine(input);
    if line.None? {
      return s.(phase := Closed);
    }
    if !("AUTHINFO USER" <= line.value) {
      return s.Violation();
    }
    s := s.Reply(SERVER_AUTH, WantPass);
    assert s.Serve(rest) == ACCEPTED.Welcome().Serve(input);
    line, rest := ReadLine(rest);
    if line.None? {
      return s.(phase := Closed);
    }
    if !("AUTHINFO PASS" <= line.value) {
      return s.Violation();
    }
    s := s.Reply(SERVER_AUTH_SUCCESS, Command);
    while true
      invariant s.phase.Command? && s.Serve(rest) == ACCEPTED.Welcome().Serve(input)
      decreases |rest|
    {
      line, rest := ReadLine(rest);
      if line.None? {
        return s.(phase := Closed);
      }
      if "POST" <= line.value {
        s := s.Reply(SERVER_SEND_ARTICLE, Command);
        var ended;
        s, ended, rest := ReceiveArticle(s, rest);
        if ended {
          return;
        }
      } else if "QUIT" <= line.value {
        return s.(phase := Closed);
      }
    }
  }

  // ---- What a session makes of articles -------------------------------------------------------------------

  /** An article that is one article to the server: no dot line before its end, no NUL byte. */
  predicate Postable(w: string)
  {
    ReadArticle(w) == Some((w, "")) && '\0' !in w
  }

  /** The server's loop reads what ReadArticle reads. */
  lemma {:induction false} ServeArticle(s: Session, w: string, rest: string)
    requires s.phase.Receiving? && Postable(w)
    ensures s.Serve(w + rest)
         == s.(stored := s.stored + [s.phase.current + w]).Reply(SERVER_ARTICLE_POSTED, Command).Serve(rest)
    decreases |w|
  {
    var e := LineEnd(w);
    var line := w[..e];
    LineEndPrefix(w, rest);
    assert '\0' !in line && s.OnLine(line).Serve(w[e..] + rest) == s.Serve(w + rest);
    if line == DOT_LINE {
      assert w == line && w[e..] + rest == rest;
    } else {
      assert w == line + w[e..] && '\0' !in w[e..];
      ServeArticle(s.OnLine(line), w[e..], rest);
      Assoc(s.phase.current, line, w[e..]);
    }
  }

  /** What a client sends to post these articles. */
  function PostAll(wires: seq<string>): string
  {
    if wires == [] then "" else ("POST" + CRLF) + (wires[0] + PostAll(wires[1..]))
  }

  function Replies(n: nat): string
  {
    if n == 0 then "" else (SERVER_SEND_ARTICLE + SERVER_ARTICLE_POSTED) + Replies(n - 1)
  }

  lemma ServeCommand(s: Session, body: string, rest: string)
    requires s.Reading() && Plain(body)
    ensures s.Serve((body + CRLF) + rest) == s.OnLine(body + CRLF).Serve(rest)
  {
    PlainLine(body);
    LineEndPrefix(body + CRLF, rest);
    assert (body + CRLF)[|body + CRLF|..] + rest == rest;
  }

  lemma ServeOnePost(s: Session, w: string, rest: string)
    requires s.phase.Command? && Postable(w)
    ensures s.Serve(("POST" + CRLF) + (w + rest))
         == s.(stored := s.stored + [w], out := s.out + (SERVER_SEND_ARTICLE + SERVER_ARTICLE_POSTED)).Serve(rest)
  {
    var s1 := s.Reply(SERVER_SEND_ARTICLE, Receiving(""));
    ServeCommand(s, "POST", w + rest);
    assert "POST" <= "POST" + CRLF && s.OnLine("POST" + CRLF) == s1;
    ServeArticle(s1, w, rest);
    assert "" + w == w;
    Assoc(s.out, SERVER_SEND_ARTICLE, SERVER_ARTICLE_POSTED);
  }

  lemma {:induction false} ServePosts(s: Session, wires: seq<string>, rest: string)
    requires s.phase.Command? && forall i :: 0 <= i < |wires| ==> Postable(wires[i])
    ensures s.Serve(PostAll(wires) + rest) == s.(stored := s.stored + wires, out := s.out + Replies(|wires|)).Serve(rest)
    decreases |wires|
  {
    if wires == [] {
      assert PostAll(wires) + rest == rest && s.stored + wires == s.stored && s.out + Replies(0) == s.out;
    } else {
      var w, ws, answers := wires[0], wires[1..], SERVER_SEND_ARTICLE + SERVER_ARTICLE_POSTED;
      PostAllStep(wires, rest);
      ServeOnePost(s, w, PostAll(ws) + rest);
      ServePosts(s.(stored := s.stored + [w], out := s.out + answers), ws, rest);
      assert wires == [w] + ws;
      Assoc(s.stored, [w], ws);
      Assoc(s.out, answers, Replies(|ws|));
    }
  }

  lemma PostAllStep(wires: seq<string>, rest: string)
    requires wires != []
    ensures PostAll(wires) + rest == ("POST" + CRLF) + (wires[0] + (PostAll(wires[1..]) + rest))
  {
    Assoc("POST" + CRLF, wires[0] + PostAll(wires[1..]), rest);
    Assoc(wires[0], PostAll(wires[1..]), rest);
  }

  function Script(username: string, password: string, wires: seq<string>): string
  {
    (("AUTHINFO USER " + username) + CRLF)
    + ((("AUTHINFO PASS " + password) + CRLF) + (PostAll(wires) + ("QUIT" + CRLF)))
  }

  lemma ServeLogin(username: string, password: string, rest: string)
    requires Plain(username) && Plain(password)
    ensures ACCEPTED.Welcome().Serve((("AUTHINFO USER " + username) + CRLF) + ((("AUTHINFO PASS " + password) + CRLF) + rest))
         == Session(Command, (SERVER_WELCOME + SERVER_AUTH) + SERVER_AUTH_SUCCESS, [], false).Serve(rest)
  {
    var user, pass := "AUTHINFO USER " + username, "AUTHINFO PASS " + password;
    var s0 := ACCEPTED.Welcome();
    assert "AUTHINFO USER" <= user + CRLF && "AUTHINFO PASS" <= pass + CRLF;
    ServeCommand(s0, user, (pass + CRLF) + rest);
    ServeCommand(s0.Reply(SERVER_AUTH, WantPass), pass, rest);
    assert "" + SERVER_WELCOME == SERVER_WELCOME;
  }

  lemma ServeQuit(s: Session)
    requires s.phase.Command?
    ensures s.Serve("QUIT" + CRLF) == s.(phase := Closed)
  {
    var quit := "QUIT" + CRLF;
    ServeCommand(s, "QUIT", "");
    assert quit + "" == quit && "QUIT" <= quit;
    PrefixAgrees("POST", quit);
  }

  /** A whole session: for any list of postable articles the server stores exactly these, in order, and
      reports no violation. */
  lemma SessionStoresAll(username: string, password: string, wires: seq<string>)
    requires Plain(username) && Plain(password) && forall i :: 0 <= i < |wires| ==> Postable(wires[i])
    ensures var s := ACCEPTED.Welcome().Serve(Script(username, password, wires));
            s.phase.Closed? && s.stored == wires && !s.violated
  {
    var quit := "QUIT" + CRLF;
    ServeLogin(username, password, PostAll(wires) + quit);
    var s := Session(Command, (SERVER_WELCOME + SERVER_AUTH) + SERVER_AUTH_SUCCESS, [], false);
    ServePosts(s, wires, quit);
    ServeQuit(s.(stored := s.stored + wires, out := s.out + Replies(|wires|)));
    assert [] + wires == wires;
  }
}
