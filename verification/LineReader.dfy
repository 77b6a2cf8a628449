/** src/util/asio_helpers.hpp: async_read_line, which takes one line out of a buffer that is filled by
    arrivals of any size. */
module LineReader {
  import opened Text

  /** One read: the line, or None when the input ends first; the buffer afterwards; the arrivals not yet
      consumed. */
  datatype Read = Read(line: Option<string>, buffer: string, incoming: seq<string>)

  /** async_read_until on a buffer: arrivals are appended until a CRLF is in the buffer. */
  function ReadLine(buffer: string, incoming: seq<string>): Read
    decreases |incoming|
  {
    var e := LineEnd(buffer);
    if e != 0 then Read(Some(buffer[..e]), buffer[e..], incoming)
    else if incoming == [] then Read(None, buffer, [])
    else ReadLine(buffer + incoming[0], incoming[1..])
  }

  /** The lines that n reads in a row deliver, up to the first failure. */
  function Deliver(buffer: string, incoming: seq<string>, n: nat): seq<string>
    decreases n
  {
    var r := ReadLine(buffer, incoming);
    if n == 0 || r.line.None? then [] else [r.line.value] + Deliver(r.buffer, r.incoming, n - 1)
  }

  /** What is in the buffer or still to arrive after n reads. */
  function Undelivered(buffer: string, incoming: seq<string>, n: nat): string
    decreases n
  {
    var r := ReadLine(buffer, incoming);
    if n == 0 then buffer + Concat(incoming)
    else if r.line.None? then r.buffer + Concat(r.incoming)
    else Undelivered(r.buffer, r.incoming, n - 1)
  }

  /** The shared buffer and the stream behind it. */
  class Stream {
    var buffer: string
    var incoming: seq<string>

    constructor (incoming: seq<string>)
      ensures buffer == "" && this.incoming == incoming
    {
      buffer := "";
      this.incoming := incoming;
    }

    method AsyncReadLine() returns (line: Option<string>)
      modifies this
      ensures Read(line, buffer, incoming) == ReadLine(old(buffer), old(incoming))
    {
      while LineEnd(buffer) == 0 && incoming != []
        invariant ReadLine(buffer, incoming) == ReadLine(old(buffer), old(incoming))
        decreases |incoming|
      {
        buffer, incoming := buffer + incoming[0], incoming[1..];
      }
      var bytesRead := LineEnd(buffer);
      if bytesRead != 0 {
        line := Some(buffer[..bytesRead]);
        buffer := buffer[bytesRead..];
      } else {
        line := None;
      }
    }
  }

  /** One read depends on the bytes only, not on how they are cut into arrivals: it delivers the first
      line of the whole stream and loses nothing of the rest. */
  lemma {:induction false} ReadLineIs(buffer: string, incoming: seq<string>)
    ensures var r, all := ReadLine(buffer, incoming), buffer + Concat(incoming);
            var e := LineEnd(all);
            && (r.line.Some? <==> e != 0)
            && (r.line.Some? ==> r.line.value == all[..e] && r.buffer + Concat(r.incoming) == all[e..])
            && (r.line.None? ==> r.buffer + Concat(r.incoming) == all)
    decreases |incoming|
  {
    var e := LineEnd(buffer);
    if e != 0 {
      LineEndPrefix(buffer, Concat(incoming));
    } else if incoming == [] {
      assert buffer + Concat(incoming) == buffer;
    } else {
      ReadLineIs(buffer + incoming[0], incoming[1..]);
      Assoc(buffer, incoming[0], Concat(incoming[1..]));
    }
  }

  function Take(s: seq<string>, n: nat): seq<string>
  {
    if n <= |s| then s[..n] else s
  }

  /** n reads deliver the first n lines of the stream. */
  lemma {:induction false} DeliverIs(buffer: string, incoming: seq<string>, n: nat)
    ensures Deliver(buffer, incoming, n) == Take(Lines(buffer + Concat(incoming)), n)
    decreases n
  {
    var r, all := ReadLine(buffer, incoming), buffer + Concat(incoming);
    var e := LineEnd(all);
    assert r.line.Some? == (e != 0)
        && (r.line.Some? ==> r.line.value == all[..e] && r.buffer + Concat(r.incoming) == all[e..]) by {
      ReadLineIs(buffer, incoming);
    }
    if n > 0 && r.line.Some? {
      DeliverIs(r.buffer, r.incoming, n - 1);
      TakeCons(all[..e], Lines(all[e..]), n);
    }
  }

  lemma TakeCons(l: string, ls: seq<string>, n: nat)
    requires n > 0
    ensures Take([l] + ls, n) == [l] + Take(ls, n - 1)
  {
  }

  /** Chunking independence: two ways of cutting the same bytes into arrivals give the same lines. */
  lemma ChunkingIndependence(b1: string, in1: seq<string>, b2: string, in2: seq<string>, n: nat)
    requires b1 + Concat(in1) == b2 + Concat(in2)
    ensures Deliver(b1, in1, n) == Deliver(b2, in2, n)
  {
    DeliverIs(b1, in1, n);
    DeliverIs(b2, in2, n);
  }

  /** Nothing is lost, repeated or reordered. */
  lemma {:induction false} DeliveredAndLeft(buffer: string, incoming: seq<string>, n: nat)
    ensures Concat(Deliver(buffer, incoming, n)) + Undelivered(buffer, incoming, n) == buffer + Concat(incoming)
    decreases n
  {
    var r := ReadLine(buffer, incoming);
    ReadLineKeeps(buffer, incoming);
    var rest, left := Deliver(r.buffer, r.incoming, if n > 0 then n - 1 else 0), Undelivered(buffer, incoming, n);
    if n > 0 && r.line.Some? {
      DeliveredAndLeft(r.buffer, r.incoming, n - 1);
      ConsLine(r.line.value, rest);
      Assoc(r.line.value, Concat(rest), left);
    } else {
      assert Concat([]) + left == left;
    }
  }

  lemma ReadLineKeeps(buffer: string, incoming: seq<string>)
    ensures var r := ReadLine(buffer, incoming);
            (if r.line.Some? then r.line.value else "") + (r.buffer + Concat(r.incoming)) == buffer + Concat(incoming)
  {
    ReadLineIs(buffer, incoming);
  }

  /** Every line delivered has its only CRLF at its end. */
  lemma {:induction false} DeliveredAreLines(buffer: string, incoming: seq<string>, n: nat)
    ensures AreLines(Deliver(buffer, incoming, n))
    decreases n
  {
    var r := ReadLine(buffer, incoming);
    if n > 0 && r.line.Some? {
      ReadLineIs(buffer, incoming);
      FirstLineIsLine(buffer + Concat(incoming));
      DeliveredAreLines(r.buffer, r.incoming, n - 1);
      ConsLine(r.line.value, Deliver(r.buffer, r.incoming, n - 1));
    }
  }
}
