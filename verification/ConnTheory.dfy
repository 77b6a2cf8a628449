/** What every connection keeps, whatever its owner asks for in due order and whatever the network answers. */
module ConnTheory {
  import opened Text
  import opened Message
  import opened ConnModel

  // ---- One obligation at a time ---------------------------------------------------------------

  predicate OfConnecting(t: Task)
  {
    t.Resolving? || t.Dialing? || t.Handshaking? || t.AwaitWelcome? || t.WritingUser? || t.AwaitUserReply?
    || t.WritingPass? || t.AwaitPassReply?
  }

  predicate OfPosting(t: Task)
  {
    t.WritingPost? || t.AwaitPostReply? || t.WritingArticle? || t.AwaitArticleReply?
  }

  predicate OfStatting(t: Task)
  {
    t.WritingStat? || t.AwaitStatReply?
  }

  /** How the state and the operands of a connection go with its one pending task. */
  predicate Fits(k: Conn, t: Task)
  {
    if t.RunPost? then k.state == Authenticated && k.article.Some? && k.msgid == ""
    else if OfPosting(t) then k.state == Busy && k.article.Some? && k.msgid == ""
    else if t.RunStat? then k.state == Authenticated && k.article.None?
    else if OfStatting(t) then k.state == Busy && k.article.None?
    else
      && k.article.None? && k.msgid == ""
      && if t.RunConnect? then k.state == Disconnected
         else if OfConnecting(t) then k.state == Connecting
         else if t.ConnectDone? then k.state == (if t.connect.ConnectSuccess? then Authenticated else Connecting)
         else if t.PostDone? then k.state == Authenticated && t.art.Some?
         else if t.StatDone? then k.state == Authenticated
         else k.state == Busy
  }

  /** Nothing pending, nothing held. */
  predicate Quiet(k: Conn)
  {
    k.pending == [] && k.article.None? && k.msgid == ""
  }

  predicate Wf(k: Conn)
  {
    && (Quiet(k) || (|k.pending| == 1 && Fits(k, k.pending[0])))
    && k.hist.faults == 0
  }

  /** The article a connection answers for: the one being posted, or the one in its posted handler. */
  function Held(k: Conn): Option<nat>
  {
    if k.article.Some? then k.article
    else if |k.pending| == 1 && k.pending[0].PostDone? then k.pending[0].art
    else None
  }

  /** The connection as the callback of its task t finds it: t is off the list. */
  predicate Entered(k: Conn, t: Task)
  {
    k.pending == [] && Fits(k, t) && k.hist.faults == 0
  }

  /** What the callback of t leaves behind: one new task, and the same article to answer for. */
  predicate Left(k: Conn, t: Task, k': Conn)
  {
    && Wf(k') && |k'.pending| == 1
    && !k'.pending[0].WritingQuit? && !k'.pending[0].RunConnect?
    && Held(k') == (if k.article.Some? then k.article else None)
  }

  lemma RunLeaves(k: Conn, t: Task)
    requires Entered(k, t) && k.Runs(t)
    ensures Left(k, t, k.Run(t))
  {
  }

  lemma FailsLeaves(k: Conn, t: Task)
    requires Entered(k, t) && !k.Runs(t) && !k.Calls(t) && !t.WritingQuit?
    ensures Left(k, t, k.Fails(t))
  {
    if OfConnecting(t) {
      ConnectFailsLeaves(k, t);
    } else if OfPosting(t) {
      PostFailsLeaves(k, t);
    }
  }

  lemma ConnectFailsLeaves(k: Conn, t: Task)
    requires Entered(k, t) && !k.Runs(t) && OfConnecting(t)
    ensures Left(k, t, k.Fails(t))
  {
  }

  lemma PostFailsLeaves(k: Conn, t: Task)
    requires Entered(k, t) && !k.Runs(t) && OfPosting(t)
    ensures Left(k, t, k.Fails(t))
  {
  }

  lemma SucceedsLeaves(k: Conn, t: Task, conf: Conf)
    requires Entered(k, t) && !k.Runs(t) && !k.Calls(t) && !k.Awaits(t) && !t.WritingQuit?
    ensures Left(k, t, k.Succeeds(t, conf))
  {
  }

  lemma HearsConnectLeaves(k: Conn, t: Task, line: string, conf: Conf, store: seq<Article>)
    requires Entered(k, t) && k.Awaits(t) && OfConnecting(t)
    ensures Left(k, t, k.Hears(t, line, conf, store))
  {
    if t.AwaitWelcome? {
      HearsWelcomeLeaves(k, t, line, conf, store);
    } else if t.AwaitUserReply? {
      HearsUserReplyLeaves(k, t, line, conf, store);
    } else {
      HearsPassReplyLeaves(k, t, line, conf, store);
    }
  }

  lemma HearsWelcomeLeaves(k: Conn, t: Task, line: string, conf: Conf, store: seq<Article>)
    requires Entered(k, t) && t.AwaitWelcome?
    ensures Left(k, t, k.Hears(t, line, conf, store))
  {
  }

  lemma HearsUserReplyLeaves(k: Conn, t: Task, line: string, conf: Conf, store: seq<Article>)
    requires Entered(k, t) && t.AwaitUserReply?
    ensures Left(k, t, k.Hears(t, line, conf, store))
  {
  }

  lemma HearsPassReplyLeaves(k: Conn, t: Task, line: string, conf: Conf, store: seq<Article>)
    requires Entered(k, t) && t.AwaitPassReply?
    ensures Left(k, t, k.Hears(t, line, conf, store))
  {
  }

  lemma HearsPostLeaves(k: Conn, t: Task, line: string, conf: Conf, store: seq<Article>)
    requires Entered(k, t) && k.Awaits(t) && OfPosting(t)
    ensures Left(k, t, k.Hears(t, line, conf, store))
  {
  }

  lemma HearsStatLeaves(k: Conn, t: Task, line: string, conf: Conf, store: seq<Article>)
    requires Entered(k, t) && t.AwaitStatReply?
    ensures Left(k, t, k.Hears(t, line, conf, store))
  {
  }

  lemma HearsLeaves(k: Conn, t: Task, line: string, conf: Conf, store: seq<Article>)
    requires Entered(k, t) && k.Awaits(t)
    ensures Left(k, t, k.Hears(t, line, conf, store))
  {
    if OfConnecting(t) {
      HearsConnectLeaves(k, t, line, conf, store);
    } else if OfPosting(t) {
      HearsPostLeaves(k, t, line, conf, store);
    } else {
      HearsStatLeaves(k, t, line, conf, store);
    }
  }

  /** Completing its task leaves a connection well-formed, with exactly one next task, or none after QUIT. */
  lemma {:induction false} CompleteKeepsWf(k: Conn, ev: Event, conf: Conf, store: seq<Article>)
    requires Wf(k) && k.CanComplete(0, ev)
    ensures var k' := k.Complete(0, ev, conf, store);
            && Wf(k')
            && |k'.pending| == (if k.pending[0].WritingQuit? then 0 else 1)
            && Held(k') == Held(k)
            && (k'.pending != [] ==> !k'.pending[0].WritingQuit? && !k'.pending[0].RunConnect?)
  {
    var t, d := k.pending[0], k.Done(0);
    assert d.pending == [];
    if k.Runs(t) {
      RunLeaves(d, t);
    } else if t.WritingQuit? {
    } else if ev.Ok? {
      SucceedsLeaves(d.Note(Went), t, conf);
    } else if ev.Err? {
      FailsLeaves(d.Receive(ev.arrived).Note(Failed), t);
    } else {
      var b, e := AfterRead(k, ev);
      HearsLeaves(d.(readbuf := b[e..]).Note(Reply(b[..e])), t, TextOf(b[..e]), conf, store);
    }
  }

  /** The buffer a completing read works on, and the end of the line in it. */
  lemma AfterRead(k: Conn, ev: Event) returns (b: seq<Rx>, e: nat)
    requires |k.pending| == 1 && k.CanComplete(0, ev) && ev.Data?
    ensures b == k.Done(0).Receive(ev.arrived).readbuf
    ensures e == LineEnd(TextOf(b)) && 2 <= e <= |b|
  {
    b := k.Done(0).Receive(ev.arrived).readbuf;
    assert TextOf(b) == TextOf(k.readbuf) + ev.arrived;
    e := LineEnd(TextOf(b));
  }

  /** A whole line that arrives in an empty buffer is heard at once. */
  lemma Heard(k: Conn, line: string, conf: Conf, store: seq<Article>) returns (d: Conn)
    requires |k.pending| == 1 && k.readbuf == [] && k.Awaits(k.pending[0])
    requires k.CanComplete(0, Data(line)) && LineEnd(line) == |line|
    ensures k.Complete(0, Data(line), conf, store) == d.Hears(k.pending[0], line, conf, store)
    ensures d == k.(pending := [], hist := k.hist.(ops := d.hist.ops))
  {
    var b := k.Done(0).Receive(line).readbuf;
    assert TextOf(b) == line;
    assert b[..|line|] == b && b[|line|..] == [];
    d := k.Done(0).(readbuf := []).Note(Reply(b));
    assert k.Done(0).pending == [];
  }

  lemma RequestsKeepWf(k: Conn, art: nat, id: string)
    requires Wf(k) && Quiet(k) && k.state == Authenticated
    ensures Wf(k.AsyncPost(art)) && k.AsyncPost(art).pending == [RunPost] && Held(k.AsyncPost(art)) == Some(art)
    ensures Wf(k.AsyncStat(id)) && k.AsyncStat(id).pending == [RunStat] && Held(k.AsyncStat(id)) == None
    ensures Wf(k.AsyncGracefulDisconnect()) && k.AsyncGracefulDisconnect().pending == [WritingQuit]
  {
  }

  // ---- One session at a time ------------------------------------------------------------------

  /** Nothing in the read buffer is left from an earlier session. */
  ghost predicate CleanBuffer(k: Conn)
  {
    && (k.state == Disconnected ==> k.readbuf == [])
    && AllOf(k.readbuf, k.hist.session)
  }

  ghost predicate AllOf(rx: seq<Rx>, session: nat)
  {
    forall i :: 0 <= i < |rx| ==> rx[i].session == session
  }

  lemma RunIsClean(k: Conn, t: Task)
    requires CleanBuffer(k) && k.Runs(t) && (t.RunConnect? ==> k.state == Disconnected)
    ensures CleanBuffer(k.Run(t))
  {
  }

  lemma CallbacksAreClean(k: Conn, t: Task, line: string, conf: Conf, store: seq<Article>)
    requires AllOf(k.readbuf, k.hist.session) && k.state != Disconnected && !k.Runs(t) && !k.Calls(t)
    ensures CleanBuffer(k.Fails(t))
    ensures !k.Awaits(t) ==> CleanBuffer(k.Succeeds(t, conf))
    ensures k.Awaits(t) ==> CleanBuffer(k.Hears(t, line, conf, store))
  {
  }

  lemma {:induction false} CompleteKeepsClean(k: Conn, ev: Event, conf: Conf, store: seq<Article>)
    requires Wf(k) && k.CanComplete(0, ev) && CleanBuffer(k)
    ensures CleanBuffer(k.Complete(0, ev, conf, store))
  {
    var t, d := k.pending[0], k.Done(0);
    if k.Runs(t) {
      RunIsClean(d, t);
    } else if t.WritingQuit? {
    } else if ev.Ok? {
      CallbacksAreClean(d.Note(Went), t, "", conf, store);
    } else if ev.Err? {
      CallbacksAreClean(d.Receive(ev.arrived).Note(Failed), t, "", conf, store);
    } else {
      var b, e := AfterRead(k, ev);
      CallbacksAreClean(d.(readbuf := b[e..]).Note(Reply(b[..e])), t, TextOf(b[..e]), conf, store);
    }
  }

  // ---- One completion for every operation, and the right one ----------------------------------

  predicate Opens(s: Seen, p: string)
  {
    s.Reply? && p <= TextOf(s.bytes)
  }

  /** What an operation must report, given what the network answered so far; None while it is not over.
      Written from the protocol: it does not mention the tasks of the connection. */
  function Outcome(kind: Kind, tls: bool, seen: seq<Seen>): Option<Result>
  {
    if seen != [] && seen[|seen| - 1].Failed? then
      Some(match kind
           case Connect => OfConnect(FatalConnectError)
           case Post(_) => OfPost(PostConnectionError)
           case Stat(_) => OfStat(StatConnectionError))
    else
      match kind
      case Connect => ConnectOutcome(if tls then seen else [Went] + seen)
      case Post(_) =>
        if |seen| == 2 && Opens(seen[1], "4") then Some(OfPost(PostingNotPermitted))
        else if |seen| < 4 then None
        else Some(OfPost(if Opens(seen[3], "2") then PostSuccess else PostFailure))
      case Stat(_) =>
        if |seen| < 2 then None
        else Some(OfStat(if Opens(seen[1], "2") then ArticleExists else InvalidArticle))
  }

  /** Resolve, connect, handshake, welcome, AUTHINFO USER and its reply, AUTHINFO PASS and its reply. */
  function ConnectOutcome(seen: seq<Seen>): Option<Result>
  {
    if |seen| < 4 then None
    else if !Opens(seen[3], "2") then Some(OfConnect(FatalConnectError))
    else if |seen| < 6 then None
    else if !Opens(seen[5], "381") then Some(OfConnect(if Opens(seen[5], "2") then ConnectSuccess else InvalidCredentials))
    else if |seen| < 8 then None
    else Some(OfConnect(if Opens(seen[7], "2") then ConnectSuccess else InvalidCredentials))
  }

  /** The last operation is still under way, and how far. */
  predicate UnderWay(t: Task, kind: Kind, tls: bool, seen: seq<Seen>)
  {
    var w := if tls then 1 else 0;
    if t.RunConnect? || t.Resolving? then kind.Connect? && |seen| == 0
    else if t.Dialing? then kind.Connect? && |seen| == 1
    else if t.Handshaking? then kind.Connect? && tls && |seen| == 2
    else if t.AwaitWelcome? then kind.Connect? && |seen| == 2 + w
    else if t.WritingUser? then kind.Connect? && |seen| == 3 + w && Opens(seen[2 + w], "2")
    else if t.AwaitUserReply? then kind.Connect? && |seen| == 4 + w && Opens(seen[2 + w], "2")
    else if t.WritingPass? then kind.Connect? && |seen| == 5 + w && Opens(seen[2 + w], "2") && Opens(seen[4 + w], "381")
    else if t.AwaitPassReply? then kind.Connect? && |seen| == 6 + w && Opens(seen[2 + w], "2") && Opens(seen[4 + w], "381")
    else if t.RunPost? || t.WritingPost? then kind.Post? && |seen| == 0
    else if t.AwaitPostReply? then kind.Post? && |seen| == 1
    else if t.WritingArticle? then kind.Post? && |seen| == 2 && !Opens(seen[1], "4")
    else if t.AwaitArticleReply? then kind.Post? && |seen| == 3 && !Opens(seen[1], "4")
    else if t.RunStat? || t.WritingStat? then kind.Stat? && |seen| == 0
    else if t.AwaitStatReply? then kind.Stat? && |seen| == 1
    else false
  }

  /** The handler call that reports a result of an operation. */
  function HandlerFor(kind: Kind, r: Result): Option<Task>
  {
    match (kind, r)
    case (Connect, OfConnect(c)) => Some(ConnectDone(c))
    case (Post(a), OfPost(p)) => Some(PostDone(Some(a), p))
    case (Stat(id), OfStat(s)) => Some(StatDone(id, s))
    case _ => None
  }

  ghost predicate Complete(op: Op, tls: bool)
  {
    op.result.Some? && op.result == Outcome(op.kind, tls, op.seen)
  }

  /** All replies an operation was decided on came from the session it ran in. */
  ghost predicate OwnReplies(op: Op)
  {
    forall i :: 0 <= i < |op.seen| && op.seen[i].Reply? ==> AllOf(op.seen[i].bytes, op.session)
  }

  predicate IsInternal(k: Conn)
  {
    k.pending != [] && !k.Calls(k.pending[0]) && !k.pending[0].WritingQuit?
  }

  /** Every operation but the last has reported exactly the outcome the network decided; the handler calls
      made so far carried the results of the first operations, in order. */
  ghost predicate PastOk(h: History, tls: bool)
  {
    && (forall i :: 0 <= i < |h.ops| - 1 ==> Complete(h.ops[i], tls))
    && (forall i :: 0 <= i < |h.ops| ==> OwnReplies(h.ops[i]))
    && |h.called| <= |h.ops|
    && (forall i :: 0 <= i < |h.called| ==> CalledFor(h.ops[i], h.called[i]))
  }

  /** The handler call t carried the result of the operation to the handler of its kind. */
  predicate CalledFor(op: Op, t: Task)
  {
    op.result.Some? && HandlerFor(op.kind, op.result.value) == Some(t)
  }

  /** The last operation is under way at task t, without a failure so far. */
  ghost predicate CurrentOk(k: Conn, t: Task, tls: bool)
  {
    var h, n := k.hist, |k.hist.ops|;
    && n > 0 && |h.called| == n - 1
    && var op := h.ops[n - 1];
       && op.result.None?
       && UnderWay(t, op.kind, tls, op.seen)
       && NoFailure(op.seen)
       && op.session == (if t.RunConnect? then h.session + 1 else h.session)
       && (op.kind.Post? ==> k.article == Some(op.kind.ref))
       && (op.kind.Stat? ==> k.msgid == op.kind.name)
  }

  ghost predicate NoFailure(seen: seq<Seen>)
  {
    forall i :: 0 <= i < |seen| ==> !seen[i].Failed?
  }

  /** The last operation is over; its handler call is scheduled as t, or has been made. */
  ghost predicate OverOk(h: History, t: Option<Task>, tls: bool)
  {
    var n := |h.ops|;
    if t.Some? then
      && n > 0 && |h.called| == n - 1
      && Complete(h.ops[n - 1], tls)
      && HandlerFor(h.ops[n - 1].kind, h.ops[n - 1].result.value) == t
    else |h.called| == n && (n > 0 ==> Complete(h.ops[n - 1], tls))
  }

  /** Every accepted operation gets exactly one handler call, with the outcome the network decided, and
      the handler calls come in the order of the operations. */
  ghost predicate HistoryOk(k: Conn, tls: bool)
  {
    && PastOk(k.hist, tls)
    && (if IsInternal(k) then CurrentOk(k, k.pending[0], tls)
        else OverOk(k.hist, if k.pending != [] && k.Calls(k.pending[0]) then Some(k.pending[0]) else None, tls))
  }

  lemma UnderWayNotOver(t: Task, kind: Kind, tls: bool, seen: seq<Seen>)
    requires UnderWay(t, kind, tls, seen) && NoFailure(seen)
    ensures Outcome(kind, tls, seen) == None
  {
  }

  function LastSeen(k: Conn, s: Seen): seq<Seen>
    requires k.hist.ops != []
  {
    k.hist.ops[|k.hist.ops| - 1].seen + [s]
  }

  ghost predicate Own(s: Seen, session: nat)
  {
    s.Reply? ==> AllOf(s.bytes, session)
  }

  /** The callback goes on with the operation. */
  lemma Continues(k: Conn, t: Task, s: Seen, k': Conn, tls: bool)
    requires PastOk(k.hist, tls) && CurrentOk(k, t, tls) && !t.RunConnect?
    requires !s.Failed? && Own(s, k.hist.session)
    requires k'.hist == k.Note(s).hist.(sent := k'.hist.sent)
    requires k'.article == k.article && k'.msgid == k.msgid
    requires |k'.pending| == 1 && IsInternal(k') && !k'.pending[0].RunConnect?
    requires UnderWay(k'.pending[0], k.hist.ops[|k.hist.ops| - 1].kind, tls, LastSeen(k, s))
    ensures HistoryOk(k', tls)
  {
    var n := |k.hist.ops|;
    assert k'.hist.ops[n - 1].seen == LastSeen(k, s);
    assert OwnReplies(k.hist.ops[n - 1]);
    assert forall i :: 0 <= i < n - 1 ==> k'.hist.ops[i] == k.hist.ops[i];
  }

  /** The callback ends the operation and schedules its handler call. */
  lemma Ends(k: Conn, t: Task, s: Seen, r: Result, k': Conn, tls: bool)
    requires PastOk(k.hist, tls) && CurrentOk(k, t, tls) && !t.RunConnect?
    requires Own(s, k.hist.session)
    requires k'.hist == k.Note(s).Report(r).hist
    requires |k'.pending| == 1 && k'.Calls(k'.pending[0])
    requires Outcome(k.hist.ops[|k.hist.ops| - 1].kind, tls, LastSeen(k, s)) == Some(r)
    requires HandlerFor(k.hist.ops[|k.hist.ops| - 1].kind, r) == Some(k'.pending[0])
    ensures HistoryOk(k', tls)
  {
    var n := |k.hist.ops|;
    assert k'.hist.ops[n - 1].seen == LastSeen(k, s);
    assert OwnReplies(k.hist.ops[n - 1]);
    assert forall i :: 0 <= i < n - 1 ==> k'.hist.ops[i] == k.hist.ops[i];
  }

  lemma RunKeepsHistory(k: Conn, t: Task, tls: bool)
    requires k.pending == [] && k.Runs(t) && PastOk(k.hist, tls) && CurrentOk(k, t, tls)
    ensures HistoryOk(k.Run(t), tls)
  {
  }

  lemma FailsKeepsHistory(k: Conn, t: Task, tls: bool)
    requires k.pending == [] && !k.Runs(t) && !k.Calls(t) && !t.WritingQuit?
    requires PastOk(k.hist, tls) && CurrentOk(k, t, tls)
    ensures HistoryOk(k.Note(Failed).Fails(t), tls)
  {
    if OfPosting(t) {
      PostFails(k, t, tls);
    } else if OfStatting(t) {
      StatFails(k, t, tls);
    } else {
      ConnectFails(k, t, tls);
    }
  }

  lemma PostFails(k: Conn, t: Task, tls: bool)
    requires k.pending == [] && !k.Runs(t) && OfPosting(t) && PastOk(k.hist, tls) && CurrentOk(k, t, tls)
    ensures HistoryOk(k.Note(Failed).Fails(t), tls)
  {
    Ends(k, t, Failed, OfPost(PostConnectionError), k.Note(Failed).Fails(t), tls);
  }

  lemma StatFails(k: Conn, t: Task, tls: bool)
    requires k.pending == [] && !k.Runs(t) && OfStatting(t) && PastOk(k.hist, tls) && CurrentOk(k, t, tls)
    ensures HistoryOk(k.Note(Failed).Fails(t), tls)
  {
    Ends(k, t, Failed, OfStat(StatConnectionError), k.Note(Failed).Fails(t), tls);
  }

  lemma ConnectFails(k: Conn, t: Task, tls: bool)
    requires k.pending == [] && !k.Runs(t) && OfConnecting(t) && PastOk(k.hist, tls) && CurrentOk(k, t, tls)
    ensures HistoryOk(k.Note(Failed).Fails(t), tls)
  {
    Ends(k, t, Failed, OfConnect(FatalConnectError), k.Note(Failed).Fails(t), tls);
  }

  lemma SucceedsKeepsHistory(k: Conn, t: Task, conf: Conf)
    requires k.pending == [] && !k.Runs(t) && !k.Calls(t) && !k.Awaits(t) && !t.WritingQuit?
    requires PastOk(k.hist, conf.tls) && CurrentOk(k, t, conf.tls)
    ensures HistoryOk(k.Note(Went).Succeeds(t, conf), conf.tls)
  {
    Continues(k, t, Went, k.Note(Went).Succeeds(t, conf), conf.tls);
  }

  lemma HearsWelcome(k: Conn, t: Task, b: seq<Rx>, conf: Conf, store: seq<Article>)
    requires k.pending == [] && t.AwaitWelcome?
    requires PastOk(k.hist, conf.tls) && CurrentOk(k, t, conf.tls) && AllOf(b, k.hist.session)
    ensures HistoryOk(k.Note(Reply(b)).Hears(t, TextOf(b), conf, store), conf.tls)
  {
    var k' := k.Note(Reply(b)).Hears(t, TextOf(b), conf, store);
    if "2" <= TextOf(b) {
      Continues(k, t, Reply(b), k', conf.tls);
    } else {
      Ends(k, t, Reply(b), OfConnect(FatalConnectError), k', conf.tls);
    }
  }

  lemma HearsUserReply(k: Conn, t: Task, b: seq<Rx>, conf: Conf, store: seq<Article>)
    requires k.pending == [] && t.AwaitUserReply?
    requires PastOk(k.hist, conf.tls) && CurrentOk(k, t, conf.tls) && AllOf(b, k.hist.session)
    ensures HistoryOk(k.Note(Reply(b)).Hears(t, TextOf(b), conf, store), conf.tls)
  {
    if "381" <= TextOf(b) {
      Continues(k, t, Reply(b), k.Note(Reply(b)).Hears(t, TextOf(b), conf, store), conf.tls);
    } else {
      UserReplyDecides(k, t, b, conf, store);
    }
  }

  lemma UserReplyDecides(k: Conn, t: Task, b: seq<Rx>, conf: Conf, store: seq<Article>)
    requires k.pending == [] && t.AwaitUserReply? && !("381" <= TextOf(b))
    requires PastOk(k.hist, conf.tls) && CurrentOk(k, t, conf.tls) && AllOf(b, k.hist.session)
    ensures HistoryOk(k.Note(Reply(b)).Hears(t, TextOf(b), conf, store), conf.tls)
  {
    var r := OfConnect(if "2" <= TextOf(b) then ConnectSuccess else InvalidCredentials);
    Ends(k, t, Reply(b), r, k.Note(Reply(b)).Hears(t, TextOf(b), conf, store), conf.tls);
  }

  lemma HearsPassReply(k: Conn, t: Task, b: seq<Rx>, conf: Conf, store: seq<Article>)
    requires k.pending == [] && t.AwaitPassReply?
    requires PastOk(k.hist, conf.tls) && CurrentOk(k, t, conf.tls) && AllOf(b, k.hist.session)
    ensures HistoryOk(k.Note(Reply(b)).Hears(t, TextOf(b), conf, store), conf.tls)
  {
    var k' := k.Note(Reply(b)).Hears(t, TextOf(b), conf, store);
    Ends(k, t, Reply(b), OfConnect(if "2" <= TextOf(b) then ConnectSuccess else InvalidCredentials), k', conf.tls);
  }

  lemma HearsPostReply(k: Conn, t: Task, b: seq<Rx>, conf: Conf, store: seq<Article>)
    requires k.pending == [] && t.AwaitPostReply?
    requires PastOk(k.hist, conf.tls) && CurrentOk(k, t, conf.tls) && AllOf(b, k.hist.session)
    ensures HistoryOk(k.Note(Reply(b)).Hears(t, TextOf(b), conf, store), conf.tls)
  {
    var k' := k.Note(Reply(b)).Hears(t, TextOf(b), conf, store);
    if "4" <= TextOf(b) {
      Ends(k, t, Reply(b), OfPost(PostingNotPermitted), k', conf.tls);
    } else {
      Continues(k, t, Reply(b), k', conf.tls);
    }
  }

  lemma HearsVerdict(k: Conn, t: Task, b: seq<Rx>, conf: Conf, store: seq<Article>)
    requires k.pending == [] && (t.AwaitArticleReply? || t.AwaitStatReply?)
    requires PastOk(k.hist, conf.tls) && CurrentOk(k, t, conf.tls) && AllOf(b, k.hist.session)
    ensures HistoryOk(k.Note(Reply(b)).Hears(t, TextOf(b), conf, store), conf.tls)
  {
    var good := "2" <= TextOf(b);
    var r := if t.AwaitArticleReply? then OfPost(if good then PostSuccess else PostFailure)
             else OfStat(if good then ArticleExists else InvalidArticle);
    Ends(k, t, Reply(b), r, k.Note(Reply(b)).Hears(t, TextOf(b), conf, store), conf.tls);
  }

  lemma HearsKeepsHistory(k: Conn, t: Task, b: seq<Rx>, conf: Conf, store: seq<Article>)
    requires k.pending == [] && k.Awaits(t)
    requires PastOk(k.hist, conf.tls) && CurrentOk(k, t, conf.tls) && AllOf(b, k.hist.session)
    ensures HistoryOk(k.Note(Reply(b)).Hears(t, TextOf(b), conf, store), conf.tls)
  {
    if t.AwaitWelcome? {
      HearsWelcome(k, t, b, conf, store);
    } else if t.AwaitUserReply? {
      HearsUserReply(k, t, b, conf, store);
    } else if t.AwaitPassReply? {
      HearsPassReply(k, t, b, conf, store);
    } else if t.AwaitPostReply? {
      HearsPostReply(k, t, b, conf, store);
    } else {
      HearsVerdict(k, t, b, conf, store);
    }
  }

  lemma ReadKeepsHistory(k: Conn, ev: Event, conf: Conf, store: seq<Article>)
    requires |k.pending| == 1 && k.CanComplete(0, ev) && ev.Data? && CleanBuffer(k)
    requires PastOk(k.hist, conf.tls) && CurrentOk(k, k.pending[0], conf.tls)
    ensures HistoryOk(k.Complete(0, ev, conf, store), conf.tls)
  {
    var b, e := AfterRead(k, ev);
    assert AllOf(b[..e], k.hist.session);
    assert k.Done(0).pending == [];
    HearsKeepsHistory(k.Done(0).(readbuf := b[e..]), k.pending[0], b[..e], conf, store);
  }

  lemma {:induction false} CompleteKeepsHistory(k: Conn, ev: Event, conf: Conf, store: seq<Article>)
    requires Wf(k) && k.CanComplete(0, ev) && CleanBuffer(k) && HistoryOk(k, conf.tls)
    ensures HistoryOk(k.Complete(0, ev, conf, store), conf.tls)
  {
    var t, d := k.pending[0], k.Done(0);
    assert d.pending == [];
    if k.Runs(t) {
      RunKeepsHistory(d, t, conf.tls);
    } else if t.WritingQuit? {
    } else if ev.Ok? {
      SucceedsKeepsHistory(d, t, conf);
    } else if ev.Err? {
      FailsKeepsHistory(d.Receive(ev.arrived), t, conf.tls);
    } else {
      ReadKeepsHistory(k, ev, conf, store);
    }
  }

  lemma DeliverKeepsHistory(k: Conn, tls: bool)
    requires Wf(k) && k.pending != [] && k.Calls(k.pending[0]) && HistoryOk(k, tls)
    ensures HistoryOk(k.Deliver(0), tls) && Quiet(k.Deliver(0))
    ensures var h := k.Deliver(0).hist;
            && h.called == k.hist.called + [k.pending[0]] && |h.called| == |h.ops|
            && CalledFor(h.ops[|h.ops| - 1], k.pending[0])
  {
    assert k.Deliver(0).pending == [];
  }

  /** An accepted request opens the next operation. */
  lemma Begins(k: Conn, kind: Kind, session: nat, t: Task, k': Conn, tls: bool)
    requires Quiet(k) && HistoryOk(k, tls)
    requires k'.hist == k.hist.(ops := k.hist.ops + [Op(kind, session, [], None)])
    requires k'.pending == [t] && k'.Runs(t) && UnderWay(t, kind, tls, [])
    requires session == (if t.RunConnect? then k.hist.session + 1 else k.hist.session)
    requires (kind.Post? ==> k'.article == Some(kind.ref)) && (kind.Stat? ==> k'.msgid == kind.name)
    ensures HistoryOk(k', tls)
  {
    assert forall i :: 0 <= i < |k.hist.ops| ==> Complete(k.hist.ops[i], tls);
  }

  lemma RequestsKeepHistory(k: Conn, art: nat, id: string, tls: bool)
    requires Quiet(k) && HistoryOk(k, tls) && k.state == Authenticated
    ensures HistoryOk(k.AsyncPost(art), tls) && HistoryOk(k.AsyncStat(id), tls)
  {
    Begins(k, Post(art), k.hist.session, RunPost, k.AsyncPost(art), tls);
    Begins(k, Stat(id), k.hist.session, RunStat, k.AsyncStat(id), tls);
  }

  /** Between operations the history does not depend on the state, the buffer or what was sent. */
  lemma SameHistory(k: Conn, k': Conn, tls: bool)
    requires Quiet(k) && HistoryOk(k, tls)
    requires k'.hist == k.hist.(sent := k'.hist.sent) && (k'.pending == [] || k'.pending == [WritingQuit])
    ensures HistoryOk(k', tls)
  {
  }

  lemma ClosingKeepsHistory(k: Conn, tls: bool)
    requires Quiet(k) && HistoryOk(k, tls)
    ensures HistoryOk(k.Close(), tls) && HistoryOk(k.Close().AsyncConnect(), tls)
    ensures k.state == Authenticated ==> HistoryOk(k.AsyncGracefulDisconnect(), tls)
  {
    SameHistory(k, k.Close(), tls);
    Begins(k.Close(), Connect, k.hist.session + 1, RunConnect, k.Close().AsyncConnect(), tls);
    if k.state == Authenticated {
      SameHistory(k, k.AsyncGracefulDisconnect(), tls);
    }
  }
}
