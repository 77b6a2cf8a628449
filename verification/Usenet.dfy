/** src/nntp/usenet.{hpp,cc} as an object: the two lists, the bounded queue and the work flag, and methods
    that do to them, and to the connections, what PoolModel says. Each method is one or more sections
    under the mutex; a method that waits or releases the mutex is cut there. */
module Usenet {
  import opened Message
  import opened ConnModel
  import opened PoolModel
  import opened PoolTheory
  import opened Connection

  ghost function States(cs: seq<Connection>): (r: seq<Conn>)
    reads cs
    ensures |r| == |cs| && forall i :: 0 <= i < |cs| ==> r[i] == cs[i].Abs()
  {
    if cs == [] then [] else [cs[0].Abs()] + States(cs[1..])
  }

  function ConfsOf(cs: seq<Connection>): (r: seq<Conf>)
    ensures |r| == |cs| && forall i :: 0 <= i < |cs| ==> r[i] == cs[i].conf
  {
    if cs == [] then [] else [cs[0].conf] + ConfsOf(cs[1..])
  }

  class Usenet {
    const maxsize: nat
    /** The connections in the order of add_connections; the lists hold their numbers. */
    var conns: seq<Connection>
    var ready: seq<nat>
    var busy: seq<nat>
    var queue: seq<Command>
    var work: bool
    /** Not in the source: the commands started, and the commands that came in. */
    var started: seq<Command>
    var arrivals: seq<Command>

    ghost predicate Valid()
      reads `conns, `ready, `busy
    {
      && (forall i, j :: 0 <= i < j < |conns| ==> conns[i] != conns[j])
      && (forall c :: c in ready || c in busy ==> c < |conns|)
    }

    ghost function Abs(): Pool
      reads this, conns
    {
      Pool(ready, busy, queue, work, Conns(), started, arrivals)
    }

    ghost function Conns(): (r: seq<Conn>)
      reads `conns, conns
    {
      States(conns)
    }

    function Confs(): seq<Conf>
      reads `conns
    {
      ConfsOf(conns)
    }

    constructor (maxsize: nat)
      ensures Valid() && this.maxsize == maxsize && conns == []
      ensures Abs() == Pool([], [], [], true, [], [], [])
    {
      this.maxsize := maxsize;
      conns, ready, busy, queue := [], [], [], [];
      work := true;
      started, arrivals := [], [];
    }

    /** The body of the loop in add_connections: the connection starts in the busy list, connecting. */
    method AddConnection(conf: Conf)
      requires Valid()
      modifies this
      ensures Valid() && |conns| == old(|conns|) + 1 && conns[..old(|conns|)] == old(conns)
      ensures var c := conns[old(|conns|)];
              fresh(c) && c.conf == conf && c.Abs() == FRESH.AsyncConnect()
      ensures busy == old(busy) + [old(|conns|)]
      ensures unchanged(`ready) && unchanged(`queue) && unchanged(`work) && unchanged(`started) && unchanged(`arrivals)
    {
      var conn := new Connection(conf);
      conn.AsyncConnect();
      busy := busy + [|conns|];
      conns := conns + [conn];
    }

    /** add_connections */
    method AddConnections(confs: seq<Conf>)
      requires Valid()
      modifies this
      ensures Valid() && |conns| == old(|conns|) + |confs| && conns[..old(|conns|)] == old(conns)
      ensures forall j :: old(|conns|) <= j < |conns| ==>
                fresh(conns[j]) && conns[j].conf == confs[j - old(|conns|)] && conns[j].Abs() == FRESH.AsyncConnect()
      ensures |busy| == old(|busy|) + |confs| && busy[..old(|busy|)] == old(busy)
      ensures forall j :: old(|busy|) <= j < |busy| ==> busy[j] == old(|conns|) + j - old(|busy|)
      ensures unchanged(`ready) && unchanged(`queue) && unchanged(`work) && unchanged(`started) && unchanged(`arrivals)
    {
      ghost var n, m := |conns|, |busy|;
      for i := 0 to |confs|
        invariant Valid() && |conns| == n + i && conns[..n] == old(conns)
        invariant forall j :: n <= j < |conns| ==>
                    fresh(conns[j]) && conns[j].conf == confs[j - n] && conns[j].Abs() == FRESH.AsyncConnect()
        invariant |busy| == m + i && busy[..m] == old(busy)
        invariant forall j :: m <= j < |busy| ==> busy[j] == n + j - m
        invariant unchanged(`ready) && unchanged(`queue) && unchanged(`work) && unchanged(`started) && unchanged(`arrivals)
      {
        ghost var before := conns;
        AddConnection(confs[i]);
        assert forall j :: 0 <= j < |before| ==> conns[j] == before[j];
      }
    }

    // ---- One connection -----------------------------------------------------------------------------------

    method TellPost(c: nat, msg: nat)
      requires Valid() && c < |conns|
      modifies conns[c]
      ensures Valid() && Abs() == old(Abs()).With(c, old(Abs()).At(c).AsyncPost(msg))
    {
      var accepted := conns[c].AsyncPost(msg);
      assert Conns() == old(Conns())[c := conns[c].Abs()];
    }

    method TellStat(c: nat, mid: string)
      requires Valid() && c < |conns|
      modifies conns[c]
      ensures Valid() && Abs() == old(Abs()).With(c, old(Abs()).At(c).AsyncStat(mid))
    {
      var accepted := conns[c].AsyncStat(mid);
      assert Conns() == old(Conns())[c := conns[c].Abs()];
    }

    method NoteStart(cmd: Command)
      requires Valid()
      modifies this`started
      ensures Valid() && Abs() == old(Abs()).(started := old(Abs()).started + [cmd])
    {
      started := started + [cmd];
    }

    method StartAsyncPost(c: nat, msg: nat)
      requires Valid() && c < |conns|
      modifies this`started, conns[c]
      ensures Valid() && Abs() == old(Abs()).Start(c, PostCmd(msg))
    {
      TellPost(c, msg);
      NoteStart(PostCmd(msg));
    }

    method StartAsyncStat(c: nat, mid: string)
      requires Valid() && c < |conns|
      modifies this`started, conns[c]
      ensures Valid() && Abs() == old(Abs()).Start(c, StatCmd(mid))
    {
      TellStat(c, mid);
      NoteStart(StatCmd(mid));
    }

    /** A queued command applied to a connection. */
    method Run(cmd: Command, c: nat)
      requires Valid() && c < |conns|
      modifies this`started, conns[c]
      ensures Valid() && Abs() == old(Abs()).Start(c, cmd)
    {
      match cmd {
        case PostCmd(msg) => StartAsyncPost(c, msg);
        case StatCmd(mid) => StartAsyncStat(c, mid);
      }
    }

    method Hangup(c: nat)
      requires Valid() && c < |conns|
      modifies conns[c]
      ensures Valid() && Abs() == old(Abs()).Hangup(c)
    {
      conns[c].AsyncGracefulDisconnect();
      assert Conns() == old(Conns())[c := conns[c].Abs()];
    }

    /** A task of connection c completes. */
    method Progress(c: nat, i: nat, ev: Event, store: seq<Article>)
      requires Valid() && c < |conns| && Abs().At(c).CanComplete(i, ev)
      modifies conns[c]
      ensures Valid() && Abs() == old(Abs()).With(c, old(Abs()).At(c).Complete(i, ev, conns[c].conf, store))
    {
      conns[c].Complete(i, ev, store);
      assert Conns() == old(Conns())[c := conns[c].Abs()];
    }

    /** The handler posted by connection c is called. */
    method Enter(c: nat, i: nat)
      requires Valid() && c < |conns| && i < |Abs().At(c).pending|
      modifies conns[c]
      ensures Valid() && Abs() == old(Abs()).Enter(c, i)
    {
      conns[c].Deliver(i);
      assert Conns() == old(Conns())[c := conns[c].Abs()];
    }

    method Close(c: nat)
      requires Valid() && c < |conns|
      modifies conns[c]
      ensures Valid() && Abs() == old(Abs()).With(c, old(Abs()).At(c).Close())
    {
      conns[c].Close();
      assert Conns() == old(Conns())[c := conns[c].Abs()];
    }

    method Reconnect(c: nat)
      requires Valid() && c < |conns|
      modifies conns[c]
      ensures Valid() && Abs() == old(Abs()).Reconnect(c)
    {
      conns[c].Close();
      conns[c].AsyncConnect();
      assert Conns() == old(Conns())[c := conns[c].Abs()];
    }

    // ---- Commands -----------------------------------------------------------------------------------------

    /** The first ready connection is spliced to the front of the busy list and gets the command. */
    method StartOnReady(cmd: Command)
      requires Valid() && ready != []
      modifies this, conns
      ensures Valid() && conns == old(conns) && Abs() == old(Abs()).Arrive(cmd).StartOnReady(cmd)
    {
      var it := ready[0];
      assert it in ready && forall c :: c in ready[1..] ==> c in ready;
      arrivals := arrivals + [cmd];
      busy := [it] + busy;
      ready := ready[1..];
      Run(cmd, it);
    }

    method PushBack(cmd: Command)
      requires Valid()
      modifies this`queue, this`arrivals
      ensures Valid() && Abs() == old(Abs()).Push(cmd, false)
    {
      arrivals := arrivals + [cmd];
      queue := queue + [cmd];
    }

    /** enqueue_post and enqueue_stat up to the wait: the command is started or pushed, unless the caller
        has to wait. */
    method Enqueue(cmd: Command, bypassWait: bool) returns (waits: bool)
      requires Valid()
      modifies this, conns
      ensures Valid() && conns == old(conns)
      ensures waits == (old(ready) == [] && !bypassWait && old(Abs()).Full(maxsize))
      ensures Abs() == if waits then old(Abs()) else old(Abs()).DispatchOrQueue(cmd, false)
    {
      if |ready| > 0 {
        StartOnReady(cmd);
        return false;
      }
      if !bypassWait && maxsize != 0 && |queue| >= maxsize {
        return true;
      }
      PushBack(cmd);
      return false;
    }

    /** The rest of enqueue_post and enqueue_stat, when the wait is over. */
    method AfterWait(cmd: Command)
      requires Valid() && !Abs().Full(maxsize)
      modifies this
      ensures Valid() && conns == old(conns) && Abs() == old(Abs()).Push(cmd, false)
    {
      PushBack(cmd);
    }

    method DispatchOrQueue(cmd: Command, front: bool)
      requires Valid()
      modifies this, conns
      ensures Valid() && conns == old(conns) && Abs() == old(Abs()).DispatchOrQueue(cmd, front)
    {
      if |ready| > 0 {
        StartOnReady(cmd);
      } else {
        arrivals := arrivals + [cmd];
        if front {
          queue := [cmd] + queue;
        } else {
          queue := queue + [cmd];
        }
      }
    }

    // ---- Handlers -----------------------------------------------------------------------------------------

    method LeaveReady()
      requires Valid() && ready != []
      modifies this`ready
      ensures Valid() && |ready| == |old(ready)| - 1 && Abs() == old(Abs()).(ready := old(Abs()).ready[1..])
    {
      assert forall c :: c in ready[1..] ==> c in ready;
      ready := ready[1..];
    }

    method LeaveBusy(c: nat)
      requires Valid()
      modifies this`busy
      ensures Valid() && Abs() == old(Abs()).(busy := Without(old(Abs()).busy, c))
    {
      WithoutIs(busy, c);
      busy := Without(busy, c);
    }

    method HangupFirst()
      requires Valid() && ready != []
      modifies this`ready, conns
      ensures Valid() && |ready| == |old(ready)| - 1
      ensures var p := old(Abs()); Abs() == p.Hangup(p.ready[0]).(ready := p.ready[1..])
    {
      assert ready[0] in ready;
      Hangup(ready[0]);
      LeaveReady();
    }

    /** The loop at the end of on_conn_becomes_ready. */
    method HangupReady()
      requires Valid()
      modifies this`ready, conns
      ensures Valid() && Abs() == old(Abs()).HangupReady()
    {
      ghost var target := Abs().HangupReady();
      while |ready| > 0
        invariant Valid() && Abs().HangupReady() == target
        decreases |ready|
      {
        HangupFirst();
      }
    }

    method RunQueued(c: nat)
      requires Valid() && c < |conns| && queue != []
      modifies this`queue, this`started, conns[c]
      ensures Valid() && Abs() == old(Abs()).(queue := old(Abs()).queue[1..]).Start(c, old(Abs()).queue[0])
    {
      var nextCommand := queue[0];
      queue := queue[1..];
      Run(nextCommand, c);
    }

    method Shutdown(c: nat)
      requires Valid() && c < |conns|
      modifies this`ready, this`busy, conns
      ensures Valid() && Abs() == old(Abs()).(busy := Without(old(Abs()).busy, c)).Hangup(c).HangupReady()
    {
      LeaveBusy(c);
      Hangup(c);
      HangupReady();
    }

    /** on_conn_becomes_ready; in the shutdown branch the connection leaves both lists. */
    method OnConnBecomesReady(c: nat)
      requires Valid() && c < |conns|
      modifies this, conns
      ensures Valid() && conns == old(conns) && Abs() == old(Abs()).BecomesReady(c)
    {
      if |queue| > 0 {
        RunQueued(c);
      } else if work {
        LeaveBusy(c);
        ready := ready + [c];
      } else {
        Shutdown(c);
      }
    }

    /** discard_connection */
    method DiscardConnection(c: nat)
      requires Valid()
      modifies this
      ensures Valid() && conns == old(conns) && Abs() == old(Abs()).Discard(c)
    {
      WithoutIs(busy, c);
      busy := Without(busy, c);
      if |busy| == 0 && |ready| == 0 {
        work := false;
      }
    }

    /** on_connected */
    method OnConnected(c: nat, result: ConnectResult)
      requires Valid() && c < |conns|
      modifies this, conns
      ensures Valid() && conns == old(conns) && Abs() == old(Abs()).OnConnected(c, result)
    {
      match result {
        case FatalConnectError => DiscardConnection(c);
        case InvalidCredentials => DiscardConnection(c);
        case ConnectSuccess => OnConnBecomesReady(c);
      }
    }

    /** The STAT connection-error branch, as it is in the source. */
    method OnStatLost(c: nat, id: string)
      requires Valid() && c < |conns|
      modifies this`queue, this`arrivals, conns[c]
      ensures Valid() && Abs() == old(Abs()).StatFailed(c, id, false)
    {
      PushBack(StatCmd(id));
      Reconnect(c);
    }

    /** on_stat_finished */
    method OnStatFinished(c: nat, id: string, result: StatResult)
      requires Valid() && c < |conns|
      modifies this, conns
      ensures Valid() && conns == old(conns)
      ensures result.StatConnectionError? ==> Abs() == old(Abs()).StatFailed(c, id, false)
      ensures !result.StatConnectionError? ==> Abs() == old(Abs()).BecomesReady(c)
    {
      if result.StatConnectionError? {
        OnStatLost(c, id);
      } else {
        OnConnBecomesReady(c);
      }
    }

    /** on_post_finished for a post that is not permitted, up to the end of discard_connection. */
    method OnNotPermitted(c: nat)
      requires Valid() && c < |conns|
      modifies this, conns
      ensures Valid() && conns == old(conns) && Abs() == old(Abs()).With(c, old(Abs()).At(c).Close()).Discard(c)
    {
      Close(c);
      DiscardConnection(c);
    }

    /** stop() */
    method Stop()
      requires Valid()
      modifies this`work
      ensures Valid() && Abs() == old(Abs()).(work := false)
    {
      work := false;
    }
  }

  /** start() and add_connections give the initial pool of the step system. */
  method Start(maxsize: nat, confs: seq<Conf>) returns (usenet: Usenet)
    ensures fresh(usenet) && fresh(usenet.conns) && usenet.Valid() && usenet.maxsize == maxsize
    ensures usenet.Confs() == confs
    ensures usenet.Abs() == InitialPool(|confs|)
  {
    usenet := new Usenet(maxsize);
    usenet.AddConnections(confs);
    assert usenet.busy == Iota(|confs|);
    assert forall i :: 0 <= i < |confs| ==> usenet.Conns()[i] == FRESH.AsyncConnect();
  }
}
