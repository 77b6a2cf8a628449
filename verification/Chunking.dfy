/** A connection does not see how the bytes of its server are cut into arrivals: one line reader for both
    sides, and the same conversation however much a read takes beyond the line it waits for. */
module Chunking {
  import opened Text
  import opened Message
  import opened ConnModel
  import opened ConnTheory
  import LineReader

  // ---- The read of a connection is async_read_line ----------------------------------------------------------

  /** What arrived before a read by the line reader was over. */
  function Consumed(incoming: seq<string>, left: seq<string>): string
  {
    if |left| <= |incoming| then Concat(incoming[..|incoming| - |left|]) else ""
  }

  lemma {:induction false} ReadTakes(buffer: string, incoming: seq<string>)
    ensures var r := LineReader.ReadLine(buffer, incoming);
            var arrived := Consumed(incoming, r.incoming);
            && |r.incoming| <= |incoming|
            && (r.line.Some? ==>
                  var e := LineEnd(buffer + arrived);
                  && e != 0 && r.line.value == (buffer + arrived)[..e] && r.buffer == (buffer + arrived)[e..]
                  && (LineEnd(buffer) != 0 ==> arrived == ""))
    decreases |incoming|
  {
    var r := LineReader.ReadLine(buffer, incoming);
    if LineEnd(buffer) != 0 {
      assert incoming[..0] == [] && buffer + "" == buffer;
    } else if incoming != [] {
      ReadTakes(buffer + incoming[0], incoming[1..]);
      var n := |incoming| - |r.incoming|;
      assert incoming[..n] == [incoming[0]] + incoming[1..][..n - 1];
      ConsLine(incoming[0], incoming[1..][..n - 1]);
      Assoc(buffer, incoming[0], Concat(incoming[1..][..n - 1]));
    }
  }

  lemma CompletesOnLine(k: Conn, arrived: string, conf: Conf, store: seq<Article>) returns (d: Conn)
    requires |k.pending| == 1 && k.Awaits(k.pending[0])
    requires LineEnd(TextOf(k.readbuf) + arrived) != 0 && (LineEnd(TextOf(k.readbuf)) != 0 ==> arrived == "")
    ensures var b := TextOf(k.readbuf) + arrived;
            && k.CanComplete(0, Data(arrived))
            && k.Complete(0, Data(arrived), conf, store) == d.Hears(k.pending[0], b[..LineEnd(b)], conf, store)
            && TextOf(d.readbuf) == b[LineEnd(b)..]
  {
    var b := k.Done(0).Receive(arrived).readbuf;
    assert TextOf(b) == TextOf(k.readbuf) + arrived;
    var e := LineEnd(TextOf(b));
    d := k.Done(0).(readbuf := b[e..]).Note(Reply(b[..e]));
    assert TextOf(b[..e]) == TextOf(b)[..e] && TextOf(b[e..]) == TextOf(b)[e..];
  }

  /** When the line reader gets a line out of the buffer of a connection and what arrives, the read of the
      connection can complete with just these arrivals, hears that line, and keeps that buffer. */
  lemma ConnectionReadsLines(k: Conn, incoming: seq<string>, conf: Conf, store: seq<Article>) returns (d: Conn)
    requires |k.pending| == 1 && k.Awaits(k.pending[0])
    requires LineReader.ReadLine(TextOf(k.readbuf), incoming).line.Some?
    ensures var r := LineReader.ReadLine(TextOf(k.readbuf), incoming);
            var ev := Data(Consumed(incoming, r.incoming));
            && k.CanComplete(0, ev)
            && k.Complete(0, ev, conf, store) == d.Hears(k.pending[0], r.line.value, conf, store)
            && TextOf(d.readbuf) == r.buffer
  {
    var r := LineReader.ReadLine(TextOf(k.readbuf), incoming);
    var arrived := Consumed(incoming, r.incoming);
    ReadTakes(TextOf(k.readbuf), incoming);
    d := CompletesOnLine(k, arrived, conf, store);
  }

  // ---- Two connections that differ in what they have read ahead ---------------------------------------------

  /** The same connection but for the read buffer; buffer and unread stream together are the same bytes. */
  ghost predicate Alike(k1: Conn, u1: string, k2: Conn, u2: string)
  {
    && k2 == k1.(readbuf := k2.readbuf)
    && AllOf(k1.readbuf, k1.hist.session) && AllOf(k2.readbuf, k2.hist.session)
    && TextOf(k1.readbuf) + u1 == TextOf(k2.readbuf) + u2
  }

  lemma SameText(a: seq<Rx>, b: seq<Rx>, session: nat)
    requires AllOf(a, session) && AllOf(b, session) && TextOf(a) == TextOf(b)
    ensures a == b
  {
    forall i | 0 <= i < |a|
      ensures a[i] == b[i]
    {
      assert a[i].c == TextOf(a)[i] && b[i].c == TextOf(b)[i];
    }
  }

  /** The line a completing read takes, and what it leaves. */
  lemma TakesFirst(k: Conn, u: string, arrived: string) returns (b: seq<Rx>, e: nat)
    requires |k.pending| == 1 && k.CanComplete(0, Data(arrived)) && arrived <= u && AllOf(k.readbuf, k.hist.session)
    ensures b == k.Receive(arrived).readbuf && AllOf(b, k.hist.session)
    ensures e == LineEnd(TextOf(b)) == LineEnd(TextOf(k.readbuf) + u) && 2 <= e <= |b|
    ensures TextOf(b[..e]) == (TextOf(k.readbuf) + u)[..e]
    ensures TextOf(b[e..]) + u[|arrived|..] == (TextOf(k.readbuf) + u)[e..]
  {
    b := k.Receive(arrived).readbuf;
    var rest := u[|arrived|..];
    assert u == arrived + rest;
    assert TextOf(b) == TextOf(k.readbuf) + arrived;
    e := LineEnd(TextOf(b));
    LineEndPrefix(TextOf(b), rest);
    Assoc(TextOf(k.readbuf), arrived, rest);
    assert TextOf(b[..e]) == TextOf(b)[..e] && TextOf(b[e..]) == TextOf(b)[e..];
  }

  /** What a callback does to a connection does not depend on its read buffer. */
  lemma HearsIgnoresBuffer(k: Conn, rx: seq<Rx>, t: Task, line: string, conf: Conf, store: seq<Article>)
    requires k.Awaits(t)
    ensures k.(readbuf := rx).Hears(t, line, conf, store) == k.Hears(t, line, conf, store).(readbuf := rx)
    ensures k.Hears(t, line, conf, store).readbuf == k.readbuf
    ensures k.Hears(t, line, conf, store).hist.session == k.hist.session
  {
  }

  /** Two reads of the same stream, one taking more ahead than the other, hear the same line. */
  lemma ReadsAlike(k1: Conn, u1: string, a1: string, k2: Conn, u2: string, a2: string, conf: Conf, store: seq<Article>)
    requires Alike(k1, u1, k2, u2) && |k1.pending| == 1
    requires k1.CanComplete(0, Data(a1)) && a1 <= u1 && k2.CanComplete(0, Data(a2)) && a2 <= u2
    ensures Alike(k1.Complete(0, Data(a1), conf, store), u1[|a1|..], k2.Complete(0, Data(a2), conf, store), u2[|a2|..])
  {
    var b1, e1 := TakesFirst(k1, u1, a1);
    var b2, e2 := TakesFirst(k2, u2, a2);
    SameText(b1[..e1], b2[..e2], k1.hist.session);
    var d := k1.Done(0).(readbuf := b1[e1..]).Note(Reply(b1[..e1]));
    assert k2.Done(0).(readbuf := b2[e2..]).Note(Reply(b2[..e2])) == d.(readbuf := b2[e2..]);
    HearsIgnoresBuffer(d, b2[e2..], k1.pending[0], TextOf(b1[..e1]), conf, store);
    assert d.hist.session == k1.hist.session;
  }

  // ---- Whole conversations --------------------------------------------------------------------------------------

  /** What happens to a connection within one session: an operation other than a read completes, a read
      completes because these bytes arrived, an operation fails after these bytes arrived, its handler is
      called, it is told to post or to ask. */
  datatype Act = Goes | Reads(arrived: string) | Breaks(arrived: string) | Called | Posts(art: nat) | Asks(id: string)

  predicate Ready(k: Conn, u: string, a: Act)
  {
    match a
    case Goes => |k.pending| == 1 && !k.pending[0].RunConnect? && !k.pending[0].WritingQuit? && k.CanComplete(0, Ok)
    case Reads(arrived) => |k.pending| == 1 && k.CanComplete(0, Data(arrived)) && arrived <= u
    case Breaks(arrived) =>
      |k.pending| == 1 && !k.pending[0].WritingQuit? && k.CanComplete(0, Err(arrived)) && arrived <= u
    case Called => |k.pending| == 1 && k.Calls(k.pending[0])
    case Posts(_) => k.pending == [] && k.state == Authenticated
    case Asks(_) => k.pending == [] && k.state == Authenticated
  }

  function Does(k: Conn, u: string, a: Act, conf: Conf, store: seq<Article>): (Conn, string)
    requires Ready(k, u, a)
  {
    match a
    case Goes => (k.Complete(0, Ok, conf, store), u)
    case Reads(arrived) => (k.Complete(0, Data(arrived), conf, store), u[|arrived|..])
    case Breaks(arrived) => (k.Complete(0, Err(arrived), conf, store), u[|arrived|..])
    case Called => (k.Deliver(0), u)
    case Posts(art) => (k.AsyncPost(art), u)
    case Asks(id) => (k.AsyncStat(id), u)
  }

  predicate Possible(k: Conn, u: string, acts: seq<Act>, conf: Conf, store: seq<Article>)
    decreases |acts|
  {
    acts == [] ||
    (Ready(k, u, acts[0]) && var n := Does(k, u, acts[0], conf, store); Possible(n.0, n.1, acts[1..], conf, store))
  }

  function Conclusion(k: Conn, u: string, acts: seq<Act>, conf: Conf, store: seq<Article>): (Conn, string)
    requires Possible(k, u, acts, conf, store)
    decreases |acts|
  {
    if acts == [] then (k, u)
    else var n := Does(k, u, acts[0], conf, store); Conclusion(n.0, n.1, acts[1..], conf, store)
  }

  predicate SameKind(x: Act, y: Act)
  {
    x == y || (x.Reads? && y.Reads?) || (x.Breaks? && y.Breaks?)
  }

  /** The same acts, but for the way the bytes are cut. */
  predicate SameActs(xs: seq<Act>, ys: seq<Act>)
  {
    |xs| == |ys| && forall i :: 0 <= i < |xs| ==> SameKind(xs[i], ys[i])
  }

  lemma GoesAlike(k1: Conn, u1: string, k2: Conn, u2: string, conf: Conf, store: seq<Article>)
    requires Alike(k1, u1, k2, u2) && Ready(k1, u1, Goes) && Ready(k2, u2, Goes)
    ensures Alike(k1.Complete(0, Ok, conf, store), u1, k2.Complete(0, Ok, conf, store), u2)
  {
    var d := k1.Done(0);
    assert k2.Done(0) == d.(readbuf := k2.readbuf);
    if k1.Runs(k1.pending[0]) {
      RunIgnoresBuffer(d, k2.readbuf, k1.pending[0]);
    } else {
      assert k2.Done(0).Note(Went) == d.Note(Went).(readbuf := k2.readbuf);
      SucceedsIgnoresBuffer(d.Note(Went), k2.readbuf, k1.pending[0], conf);
    }
  }

  lemma RunIgnoresBuffer(k: Conn, rx: seq<Rx>, t: Task)
    requires k.Runs(t) && !t.RunConnect?
    ensures k.(readbuf := rx).Run(t) == k.Run(t).(readbuf := rx)
    ensures k.Run(t).readbuf == k.readbuf && k.Run(t).hist.session == k.hist.session
  {
  }

  lemma SucceedsIgnoresBuffer(k: Conn, rx: seq<Rx>, t: Task, conf: Conf)
    requires !k.Runs(t) && !k.Calls(t) && !k.Awaits(t) && !t.WritingQuit?
    ensures k.(readbuf := rx).Succeeds(t, conf) == k.Succeeds(t, conf).(readbuf := rx)
    ensures k.Succeeds(t, conf).readbuf == k.readbuf && k.Succeeds(t, conf).hist.session == k.hist.session
  {
  }

  lemma FailsIgnoresBuffer(k: Conn, rx: seq<Rx>, t: Task)
    requires !k.Runs(t) && !k.Calls(t) && !t.WritingQuit?
    ensures k.(readbuf := rx).Fails(t) == k.Fails(t).(readbuf := rx)
    ensures k.Fails(t).readbuf == k.readbuf && k.Fails(t).hist.session == k.hist.session
  {
  }

  lemma BreaksAlike(k1: Conn, u1: string, a1: string, k2: Conn, u2: string, a2: string, conf: Conf, store: seq<Article>)
    requires Alike(k1, u1, k2, u2) && Ready(k1, u1, Breaks(a1)) && Ready(k2, u2, Breaks(a2))
    ensures Alike(k1.Complete(0, Err(a1), conf, store), u1[|a1|..], k2.Complete(0, Err(a2), conf, store), u2[|a2|..])
  {
    var d1, d2 := k1.Done(0).Receive(a1), k2.Done(0).Receive(a2);
    assert d2.Note(Failed) == d1.Note(Failed).(readbuf := d2.readbuf);
    FailsIgnoresBuffer(d1.Note(Failed), d2.readbuf, k1.pending[0]);
    assert u1 == a1 + u1[|a1|..] && u2 == a2 + u2[|a2|..];
    assert TextOf(d1.readbuf) == TextOf(k1.readbuf) + a1 && TextOf(d2.readbuf) == TextOf(k2.readbuf) + a2;
    Assoc(TextOf(k1.readbuf), a1, u1[|a1|..]);
    Assoc(TextOf(k2.readbuf), a2, u2[|a2|..]);
  }

  lemma ActAlike(k1: Conn, u1: string, x: Act, k2: Conn, u2: string, y: Act, conf: Conf, store: seq<Article>)
    requires Alike(k1, u1, k2, u2) && Ready(k1, u1, x) && Ready(k2, u2, y) && SameKind(x, y)
    ensures var n1, n2 := Does(k1, u1, x, conf, store), Does(k2, u2, y, conf, store);
            Alike(n1.0, n1.1, n2.0, n2.1)
  {
    match x {
      case Goes => GoesAlike(k1, u1, k2, u2, conf, store);
      case Reads(a) => ReadsAlike(k1, u1, a, k2, u2, y.arrived, conf, store);
      case Breaks(a) => BreaksAlike(k1, u1, a, k2, u2, y.arrived, conf, store);
      case _ =>
    }
  }

  /** Chunking independence of a whole session: however the bytes of the server are cut into arrivals, and
      however far a read runs ahead, the connection sends the same bytes, reports the same operations with
      the same results, and makes the same handler calls. */
  lemma {:induction false} SameConversation(k1: Conn, u1: string, xs: seq<Act>, k2: Conn, u2: string, ys: seq<Act>, conf: Conf, store: seq<Article>)
    requires Alike(k1, u1, k2, u2) && SameActs(xs, ys)
    requires Possible(k1, u1, xs, conf, store) && Possible(k2, u2, ys, conf, store)
    ensures var e1, e2 := Conclusion(k1, u1, xs, conf, store), Conclusion(k2, u2, ys, conf, store);
            Alike(e1.0, e1.1, e2.0, e2.1) && e1.0.hist == e2.0.hist && e1.0.state == e2.0.state && e1.0.pending == e2.0.pending
    decreases |xs|
  {
    if xs != [] {
      var n1, n2 := Does(k1, u1, xs[0], conf, store), Does(k2, u2, ys[0], conf, store);
      ActAlike(k1, u1, xs[0], k2, u2, ys[0], conf, store);
      SameConversation(n1.0, n1.1, xs[1..], n2.0, n2.1, ys[1..], conf, store);
    }
  }
}
