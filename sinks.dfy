/** Text writers and their composition.

    Every underlying writer (the process's standard output, its standard error
    and each opened `StreamWriter`) is named by a `WriterId`. A `TeeTextWriter`
    is a `Sink`: a tree whose leaves are underlying writers. All writers
    together are a `Writers` object whose `trace` records, in the order they
    happen, every call any underlying writer receives; what one writer has
    received is the projection `Received(trace, w)`. */
module Sinks {

  datatype WriterId = StdOut | StdErr | FileWriter(n: nat)

  /** The `TextWriter` calls a `TeeTextWriter` overrides. */
  datatype Call = WriteChar(c: char) | WriteString(s: string) | WriteLine(s: string) | Flush

  datatype Event = Event(to: WriterId, call: Call)

  /** A writer: an underlying writer, or `new TeeTextWriter(a, b)`. */
  datatype Sink = Leaf(id: WriterId) | Tee(a: Sink, b: Sink)

  /** The underlying writers a sink reaches, left to right. */
  function Leaves(s: Sink): (ids: seq<WriterId>)
    ensures |ids| > 0
  {
    match s
    case Leaf(id) => [id]
    case Tee(a, b) => Leaves(a) + Leaves(b)
  }

  /** `TeeTextWriter.Encoding` is `_a.Encoding`: a tee reports the encoding of its leftmost writer. */
  function EncodingWriter(s: Sink): (w: WriterId)
    ensures w == Leaves(s)[0]
  {
    match s
    case Leaf(id) => id
    case Tee(a, _) => EncodingWriter(a)
  }

  /** What one call on a sink does: the same call on every underlying writer,
      `_a`'s before `_b`'s. */
  function Broadcast(s: Sink, c: Call): (es: seq<Event>)
    ensures |es| == |Leaves(s)|
    ensures forall i :: 0 <= i < |es| ==> es[i] == Event(Leaves(s)[i], c)
  {
    match s
    case Leaf(id) => [Event(id, c)]
    case Tee(a, b) => Broadcast(a, c) + Broadcast(b, c)
  }

  /** The calls on sink `s`, one after another. */
  function BroadcastAll(s: Sink, cs: seq<Call>): seq<Event>
  {
    if cs == [] then [] else BroadcastAll(s, cs[..|cs| - 1]) + Broadcast(s, cs[|cs| - 1])
  }

  /** The calls writer `w` received, in order. */
  function Received(es: seq<Event>, w: WriterId): seq<Call>
  {
    if es == [] then []
    else (if es[0].to == w then [es[0].call] else []) + Received(es[1..], w)
  }

  /** How often `w` occurs among `ids`. */
  function Count(ids: seq<WriterId>, w: WriterId): nat
  {
    if ids == [] then 0 else (if ids[0] == w then 1 else 0) + Count(ids[1..], w)
  }

  function Repeat(c: Call, n: nat): (cs: seq<Call>)
  {
    if n == 0 then [] else [c] + Repeat(c, n - 1)
  }

  lemma {:induction false} ReceivedAppend(a: seq<Event>, b: seq<Event>, w: WriterId)
    ensures Received(a + b, w) == Received(a, w) + Received(b, w)
  {
    if a != [] {
      assert (a + b)[0] == a[0];
      assert (a + b)[1..] == a[1..] + b;
      ReceivedAppend(a[1..], b, w);
    } else {
      assert a + b == b;
    }
  }

  lemma {:induction false} CountAppend(a: seq<WriterId>, b: seq<WriterId>, w: WriterId)
    ensures Count(a + b, w) == Count(a, w) + Count(b, w)
  {
    if a != [] {
      assert (a + b)[0] == a[0];
      assert (a + b)[1..] == a[1..] + b;
      CountAppend(a[1..], b, w);
    } else {
      assert a + b == b;
    }
  }

  lemma {:induction false} CountZero(ids: seq<WriterId>, w: WriterId)
    ensures Count(ids, w) == 0 <==> w !in ids
  {
    if ids != [] {
      CountZero(ids[1..], w);
      assert ids == [ids[0]] + ids[1..];
    }
  }

  lemma {:induction false} RepeatAdd(c: Call, m: nat, n: nat)
    ensures Repeat(c, m + n) == Repeat(c, m) + Repeat(c, n)
  {
    if m > 0 {
      RepeatAdd(c, m - 1, n);
    }
  }

  /** A writer receives a call made on a sink once for every leaf it is. */
  lemma {:induction false} ReceivedBroadcast(s: Sink, c: Call, w: WriterId)
    ensures Received(Broadcast(s, c), w) == Repeat(c, Count(Leaves(s), w))
  {
    match s
    case Leaf(id) =>
      assert Broadcast(s, c)[1..] == [];
      assert Leaves(s)[1..] == [];
    case Tee(a, b) =>
      ReceivedAppend(Broadcast(a, c), Broadcast(b, c), w);
      ReceivedBroadcast(a, c, w);
      ReceivedBroadcast(b, c, w);
      CountAppend(Leaves(a), Leaves(b), w);
      RepeatAdd(c, Count(Leaves(a), w), Count(Leaves(b), w));
  }

  /** Across a series of calls: a writer that is one leaf of the sink receives
      each call exactly once, in call order; a writer that is no leaf receives nothing. */
  lemma {:induction false} BroadcastAllDelivery(s: Sink, cs: seq<Call>, w: WriterId)
    ensures Count(Leaves(s), w) == 1 ==> Received(BroadcastAll(s, cs), w) == cs
    ensures Count(Leaves(s), w) == 0 ==> Received(BroadcastAll(s, cs), w) == []
  {
    if cs != [] {
      var init, last := cs[..|cs| - 1], cs[|cs| - 1];
      BroadcastAllDelivery(s, init, w);
      ReceivedAppend(BroadcastAll(s, init), Broadcast(s, last), w);
      ReceivedBroadcast(s, last, w);
      assert cs == init + [last];
    }
  }

  /** The three-way fan-out `new TeeTextWriter(new TeeTextWriter(console, agg), log)`:
      one call reaches console, aggregator and log in that order, and over any
      series of calls each of the three distinct writers receives every call
      exactly once, in call order, while no other writer receives anything. */
  lemma ThreeWayFanOut(console: WriterId, agg: WriterId, log: WriterId, cs: seq<Call>, w: WriterId)
    requires console != agg && console != log && agg != log
    ensures forall c :: Broadcast(Tee(Tee(Leaf(console), Leaf(agg)), Leaf(log)), c)
                        == [Event(console, c), Event(agg, c), Event(log, c)]
    ensures w in {console, agg, log} ==>
              Received(BroadcastAll(Tee(Tee(Leaf(console), Leaf(agg)), Leaf(log)), cs), w) == cs
    ensures w !in {console, agg, log} ==>
              Received(BroadcastAll(Tee(Tee(Leaf(console), Leaf(agg)), Leaf(log)), cs), w) == []
  {
    var s := Tee(Tee(Leaf(console), Leaf(agg)), Leaf(log));
    assert Leaves(Tee(Leaf(console), Leaf(agg))) == [console, agg];
    assert Leaves(s) == [console, agg] + [log];
    CountAppend([console, agg], [log], w);
    CountAppend([console], [agg], w);
    assert [console, agg] == [console] + [agg];
    BroadcastAllDelivery(s, cs, w);
  }

  /** The two process-wide console streams. */
  datatype Stream = Out | Err

  /** One `Console.WriteLine(text)` (on `Out`) or `Console.Error.WriteLine(text)` (on `Err`). */
  datatype ConsoleLine = ConsoleLine(stream: Stream, text: string)

  function Target(out: Sink, err: Sink, l: ConsoleLine): Sink
  {
    if l.stream == Out then out else err
  }

  /** The events of writing `lines` through a console whose streams are `out` and `err`. */
  function Emit(out: Sink, err: Sink, lines: seq<ConsoleLine>): seq<Event>
  {
    if lines == [] then []
    else
      var l := lines[|lines| - 1];
      Emit(out, err, lines[..|lines| - 1]) + Broadcast(Target(out, err, l), WriteLine(l.text))
  }

  /** The lines' texts as `WriteLine` calls. */
  function AsCalls(lines: seq<ConsoleLine>): (cs: seq<Call>)
  {
    if lines == [] then [] else AsCalls(lines[..|lines| - 1]) + [WriteLine(lines[|lines| - 1].text)]
  }

  lemma AsCallsAppend(a: seq<ConsoleLine>, b: seq<ConsoleLine>)
    ensures AsCalls(a + b) == AsCalls(a) + AsCalls(b)
    decreases |b|
  {
    if b != [] {
      assert (a + b)[..|a + b| - 1] == a + b[..|b| - 1];
      AsCallsAppend(a, b[..|b| - 1]);
    } else {
      assert a + b == a;
    }
  }

  lemma EmitSnoc(out: Sink, err: Sink, lines: seq<ConsoleLine>, l: ConsoleLine)
    ensures Emit(out, err, lines + [l]) == Emit(out, err, lines) + Broadcast(Target(out, err, l), WriteLine(l.text))
  {
    assert (lines + [l])[..|lines|] == lines;
  }

  /** The writer a page installs: `new TeeTextWriter(new TeeTextWriter(orig, agg), log)`. */
  function Redirected(orig: Sink, agg: WriterId, log: WriterId): Sink
  {
    Tee(Tee(orig, Leaf(agg)), Leaf(log))
  }

  /** One call on a redirected writer reaches aggregator and log once each,
      and every other writer as it would through the original. */
  lemma RedirectedBroadcast(orig: Sink, agg: WriterId, log: WriterId, c: Call, w: WriterId)
    requires agg != log && agg !in Leaves(orig) && log !in Leaves(orig)
    ensures Received(Broadcast(Redirected(orig, agg, log), c), w)
            == if w == agg || w == log then [c] else Received(Broadcast(orig, c), w)
  {
    var red := Redirected(orig, agg, log);
    assert Leaves(Tee(orig, Leaf(agg))) == Leaves(orig) + [agg];
    assert Leaves(red) == (Leaves(orig) + [agg]) + [log];
    CountAppend(Leaves(orig) + [agg], [log], w);
    CountAppend(Leaves(orig), [agg], w);
    CountZero(Leaves(orig), w);
    assert Count([agg], w) == (if agg == w then 1 else 0);
    assert Count([log], w) == (if log == w then 1 else 0);
    ReceivedBroadcast(red, c, w);
    ReceivedBroadcast(orig, c, w);
  }

  /** Writing lines through a console redirected to aggregator and log: the
      aggregator and the log each receive every line exactly once, in order,
      and every other writer receives just what it would have received had the
      lines been written to the original console. */
  lemma {:induction false} RedirectedDelivery(out: Sink, err: Sink, agg: WriterId, log: WriterId,
                                             lines: seq<ConsoleLine>, w: WriterId)
    requires agg != log
    requires agg !in Leaves(out) && log !in Leaves(out) && agg !in Leaves(err) && log !in Leaves(err)
    ensures Received(Emit(Redirected(out, agg, log), Redirected(err, agg, log), lines), w)
            == if w == agg || w == log then AsCalls(lines) else Received(Emit(out, err, lines), w)
  {
    if lines != [] {
      var init, l := lines[..|lines| - 1], lines[|lines| - 1];
      var rout, rerr := Redirected(out, agg, log), Redirected(err, agg, log);
      var orig := Target(out, err, l);
      var c := WriteLine(l.text);
      assert Target(rout, rerr, l) == Redirected(orig, agg, log);
      RedirectedDelivery(out, err, agg, log, init, w);
      ReceivedAppend(Emit(rout, rerr, init), Broadcast(Redirected(orig, agg, log), c), w);
      ReceivedAppend(Emit(out, err, init), Broadcast(orig, c), w);
      RedirectedBroadcast(orig, agg, log, c, w);
    }
  }

  /** The same, after whatever the writers had already received. */
  lemma RedirectedAfter(start: seq<Event>, out: Sink, err: Sink, agg: WriterId, log: WriterId,
                        lines: seq<ConsoleLine>, w: WriterId)
    requires agg != log
    requires agg !in Leaves(out) && log !in Leaves(out) && agg !in Leaves(err) && log !in Leaves(err)
    ensures Received(start + Emit(Redirected(out, agg, log), Redirected(err, agg, log), lines), w)
            == Received(start, w) + if w == agg || w == log then AsCalls(lines) else Received(Emit(out, err, lines), w)
  {
    ReceivedAppend(start, Emit(Redirected(out, agg, log), Redirected(err, agg, log), lines), w);
    RedirectedDelivery(out, err, agg, log, lines, w);
  }

  /** A run of lines through a console redirected to a fresh log and an
      aggregator not behind the console: the log gets exactly the lines, the
      aggregator gets them after what it had, and every other writer gets what
      the unredirected console would have passed it. */
  lemma RedirectedRun(start: seq<Event>, trace: seq<Event>, out: Sink, err: Sink, agg: WriterId, log: WriterId,
                      lines: seq<ConsoleLine>)
    requires trace == start + Emit(Redirected(out, agg, log), Redirected(err, agg, log), lines)
    requires agg != log && log !in Leaves(out) && log !in Leaves(err)
    requires Received(start, log) == []
    ensures agg !in Leaves(out) && agg !in Leaves(err) ==>
      && Received(trace, log) == AsCalls(lines)
      && Received(trace, agg) == Received(start, agg) + AsCalls(lines)
      && forall w :: w != agg && w != log ==> Received(trace, w) == Received(start, w) + Received(Emit(out, err, lines), w)
  {
    if agg !in Leaves(out) && agg !in Leaves(err) {
      RedirectedAfter(start, out, err, agg, log, lines, log);
      assert [] + AsCalls(lines) == AsCalls(lines);
      RedirectedAfter(start, out, err, agg, log, lines, agg);
      forall w | w != agg && w != log
        ensures Received(trace, w) == Received(start, w) + Received(Emit(out, err, lines), w)
      {
        RedirectedAfter(start, out, err, agg, log, lines, w);
      }
    }
  }

  /** All the writers of the process and everything they have received. */
  class Writers {
    var files: seq<string>      // the path each `FileWriter(n)` was opened on
    var closed: set<WriterId>   // the writers disposed so far
    var trace: seq<Event>       // every call any writer received, in order

    /** A writer that exists: a standard stream, or a file writer opened so far. */
    predicate Known(w: WriterId)
      reads this`files
    {
      w.FileWriter? ==> w.n < |files|
    }

    /** A sink all of whose writers exist and are still open: writing to it
        cannot hit a disposed writer. */
    predicate Usable(s: Sink)
      reads this`files, this`closed
    {
      forall w :: w in Leaves(s) ==> Known(w) && w !in closed
    }

    /** Only writers that exist have received anything or been disposed. */
    ghost predicate Valid()
      reads this
    {
      && (forall i :: 0 <= i < |trace| ==> Known(trace[i].to))
      && (forall w :: w in closed ==> Known(w))
    }

    constructor ()
      ensures Valid()
      ensures files == [] && closed == {} && trace == []
    {
      files, closed, trace := [], {}, [];
    }

    /** `new StreamWriter(path, append: false)`: a new writer, distinct from every existing one. */
    method Open(path: string) returns (w: WriterId)
      requires Valid()
      modifies this
      ensures Valid()
      ensures w == FileWriter(|old(files)|) && !old(Known(w)) && Known(w)
      ensures files == old(files) + [path]
      ensures closed == old(closed) && trace == old(trace)
      ensures forall s :: old(Usable(s)) ==> Usable(s)
    {
      w := FileWriter(|files|);
      files := files + [path];
    }

    /** `Dispose` on a writer. */
    method Close(w: WriterId)
      requires Valid() && Known(w)
      modifies this
      ensures Valid()
      ensures closed == old(closed) + {w}
      ensures files == old(files) && trace == old(trace)
      ensures forall s :: old(Usable(s)) && w !in Leaves(s) ==> Usable(s)
    {
      closed := closed + {w};
    }

    /** Any of `TeeTextWriter`'s `Write(char)`, `Write(string)`, `WriteLine(string)`
        and `Flush`: a leaf records the call, a tee forwards it to `_a` and then to `_b`. */
    method Send(s: Sink, c: Call)
      requires Valid() && Usable(s)
      modifies this
      ensures Valid()
      ensures trace == old(trace) + Broadcast(s, c)
      ensures files == old(files) && closed == old(closed)
      decreases s
    {
      match s
      case Leaf(id) =>
        assert id in Leaves(s);
        trace := trace + [Event(id, c)];
      case Tee(a, b) =>
        Send(a, c);
        Send(b, c);
    }

    /** A tee onto usable writers is usable. */
    lemma UsableRedirected(orig: Sink, agg: WriterId, log: WriterId)
      requires Usable(orig) && Usable(Leaf(agg)) && Known(log) && log !in closed
      ensures Usable(Redirected(orig, agg, log))
    {
      assert Leaves(Tee(orig, Leaf(agg))) == Leaves(orig) + [agg];
      assert Leaves(Redirected(orig, agg, log)) == Leaves(orig) + [agg] + [log];
    }

    /** A writer not yet opened is a leaf of no usable sink. */
    lemma NextNotInUsable(s: Sink)
      requires Usable(s)
      ensures FileWriter(|files|) !in Leaves(s)
    {
    }

    /** A writer not yet opened has received nothing. */
    lemma NextReceivedNothing()
      requires Valid()
      ensures Received(trace, FileWriter(|files|)) == []
    {
      NothingToUnknown(trace, FileWriter(|files|));
    }

    lemma {:induction false} NothingToUnknown(es: seq<Event>, w: WriterId)
      requires forall i :: 0 <= i < |es| ==> Known(es[i].to)
      requires !Known(w)
      ensures Received(es, w) == []
    {
      if es != [] {
        NothingToUnknown(es[1..], w);
      }
    }
  }

  /** `System.Console`: the process-wide `Out` and `Error` writers. */
  class Console {
    var out: Sink
    var err: Sink

    constructor ()
      ensures out == Leaf(StdOut) && err == Leaf(StdErr)
    {
      out, err := Leaf(StdOut), Leaf(StdErr);
    }

    /** `Console.SetOut`. */
    method SetOut(s: Sink)
      modifies this
      ensures out == s && err == old(err)
    {
      out := s;
    }

    /** `Console.SetError`. */
    method SetError(s: Sink)
      modifies this
      ensures err == s && out == old(out)
    {
      err := s;
    }

    /** `Console.WriteLine(text)` (`Out`) or `Console.Error.WriteLine(text)` (`Err`). */
    method Write(io: Writers, l: ConsoleLine, ghost before: seq<ConsoleLine>, ghost base: seq<Event>)
      requires io.Valid() && io.Usable(Target(out, err, l))
      requires io.trace == base + Emit(out, err, before)
      modifies io
      ensures io.Valid()
      ensures io.trace == base + Emit(out, err, before + [l])
      ensures io.files == old(io.files) && io.closed == old(io.closed)
    {
      io.Send(Target(out, err, l), WriteLine(l.text));
      EmitSnoc(out, err, before, l);
    }
  }
}
