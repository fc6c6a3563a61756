/** One page: log redirection, the prediction request and what is printed about it. */
module PageProcessor {
  import opened Wrappers
  import opened Text
  import opened Sinks
  import Paths

  /** One predicted tag. `probability` is an integer key standing for the
      service's floating-point probability (it orders the tags) and `percent`
      is that probability as `{Probability:P2}` renders it. */
  datatype Prediction = Prediction(tagName: string, probability: int, percent: string)

  /** How the page's calls into the outside world turn out: the JPEG encoding
      (its size in bytes), the prediction request (the tags returned) and the
      writing of the annotated image (an exception, or none). */
  datatype PageRun = PageRun(encoded: Try<nat>, predicted: Try<seq<Prediction>>, annotation: Option<Exception>)

  // ---- ordering the tags ----

  predicate Descending(ps: seq<Prediction>)
  {
    forall i, j :: 0 <= i < j < |ps| ==> ps[i].probability >= ps[j].probability
  }

  /** Puts `p` into a list ahead of the first tag it does not trail. */
  function InsertDescending(p: Prediction, ps: seq<Prediction>): seq<Prediction>
  {
    if ps == [] then [p]
    else if ps[0].probability <= p.probability then [p] + ps
    else [ps[0]] + InsertDescending(p, ps[1..])
  }

  /** Inserting adds exactly `p`. */
  lemma {:induction false} InsertDescendingAdds(p: Prediction, ps: seq<Prediction>)
    ensures var r := InsertDescending(p, ps);
      multiset(r) == multiset(ps) + multiset{p} && |r| == |ps| + 1
  {
    if ps != [] && ps[0].probability > p.probability {
      InsertDescendingAdds(p, ps[1..]);
      assert ps == [ps[0]] + ps[1..];
    }
  }

  /** Inserting into a descending list keeps it descending; the new head is
      `p` or the old head. */
  lemma {:induction false} InsertDescendingSorts(p: Prediction, ps: seq<Prediction>)
    requires Descending(ps)
    ensures var r := InsertDescending(p, ps);
      Descending(r) && r[0] == if ps == [] || ps[0].probability <= p.probability then p else ps[0]
  {
    if ps == [] {
    } else if ps[0].probability <= p.probability {
      forall i, j | 0 <= i < j < |ps| + 1
        ensures ([p] + ps)[i].probability >= ([p] + ps)[j].probability
      {
        if i > 0 {
          assert ([p] + ps)[i] == ps[i - 1] && ([p] + ps)[j] == ps[j - 1];
        } else {
          assert ps[0].probability >= ps[j - 1].probability;
        }
      }
    } else {
      var rest := InsertDescending(p, ps[1..]);
      assert Descending(ps[1..]) by {
        forall i, j | 0 <= i < j < |ps[1..]|
          ensures ps[1..][i].probability >= ps[1..][j].probability
        {
          assert ps[1..][i] == ps[i + 1] && ps[1..][j] == ps[j + 1];
        }
      }
      InsertDescendingSorts(p, ps[1..]);
      InsertDescendingAdds(p, ps[1..]);
      assert rest[0].probability <= ps[0].probability;
      forall i, j | 0 <= i < j < |rest| + 1
        ensures ([ps[0]] + rest)[i].probability >= ([ps[0]] + rest)[j].probability
      {
        if i > 0 {
          assert ([ps[0]] + rest)[i] == rest[i - 1] && ([ps[0]] + rest)[j] == rest[j - 1];
        } else if j > 1 {
          assert rest[0].probability >= rest[j - 1].probability;
        }
      }
    }
  }

  /** `OrderByDescending(t => t.Probability)`: insertion sort by probability. */
  function SortByProbability(ps: seq<Prediction>): seq<Prediction>
  {
    if ps == [] then [] else InsertDescending(ps[0], SortByProbability(ps[1..]))
  }

  /** The tags by non-increasing probability: a descending permutation of `ps`. */
  lemma {:induction false} SortByProbabilitySorts(ps: seq<Prediction>)
    ensures Descending(SortByProbability(ps))
    ensures multiset(SortByProbability(ps)) == multiset(ps)
    ensures |SortByProbability(ps)| == |ps|
  {
    if ps != [] {
      var rest := SortByProbability(ps[1..]);
      SortByProbabilitySorts(ps[1..]);
      InsertDescendingSorts(ps[0], rest);
      InsertDescendingAdds(ps[0], rest);
      assert SortByProbability(ps) == InsertDescending(ps[0], rest);
      assert ps == [ps[0]] + ps[1..];
      assert multiset(ps) == multiset{ps[0]} + multiset(ps[1..]);
    }
  }

  // ---- the page's console lines ----

  function TagLabel(p: Prediction): string
  {
    p.tagName + ": " + p.percent
  }

  function AnnotatedPath(outputBase: string, pageName: string): string
  {
    Paths.Combine(outputBase, pageName + "_tags.jpg")
  }

  /** One line `ProcessPage` writes, before it is rendered to text. */
  datatype Message =
    | PageHeader(pageName: string)
    | EncodingPage
    | EncodedSize(size: nat)
    | SendingImage
    | TagsReturned(count: nat)
    | TagsHeading
    | TagLine(tag: Prediction)
    | SavingAnnotated(path: string)
    | AnnotatedSaved
    | SkippingAnnotation
    | ExceptionIn(page: string, text: string)
    | InnerException(text: string)
    | DoneIn(elapsed: string)

  function Info(s: string): string { "[INFO] " + s }

  function Error(s: string): string { "[ERROR] " + s }

  /** The text of each line, as the interpolated strings of `ProcessPage` spell it. */
  function TextOf(m: Message): string
  {
    match m
    case PageHeader(name) => "---------- " + name + " ----------"
    case EncodingPage => Info("Encoding page to JPEG for prediction...")
    case EncodedSize(size) => Info("JPEG encoding complete. Size: " + NatToString(size) + " bytes.")
    case SendingImage => Info("Sending image to Custom Vision Prediction API...")
    case TagsReturned(count) => Info("Prediction API call complete. " + NatToString(count) + " tags returned.")
    case TagsHeading => "Predicted tags:"
    case TagLine(p) => "  " + TagLabel(p)
    case SavingAnnotated(path) => Info("Annotating and saving image to: " + path)
    case AnnotatedSaved => Info("Annotated image saved.")
    case SkippingAnnotation => Info("Skipping annotation (requires --verbose).")
    case ExceptionIn(page, text) => Error("Exception in " + page + ": " + text)
    case InnerException(text) => Error("Inner exception: " + text)
    case DoneIn(elapsed) => Info("Done in " + elapsed + "\n")
  }

  /** The kinds of text: the header is framed by dashes, the heading and the
      tag lines are bare, the catch block's lines are `[ERROR]` lines and every
      other line is an `[INFO]` line. */
  lemma TextOfKinds(m: Message)
    ensures var r := TextOf(m);
      && (m.PageHeader? ==> StartsWith(r, "---------- ") && r[|r| - 11..] == " ----------")
      && (m.TagsHeading? ==> r == "Predicted tags:")
      && (m.TagLine? ==> r == "  " + m.tag.tagName + ": " + m.tag.percent)
      && (m.ExceptionIn? || m.InnerException? ==> StartsWith(r, "[ERROR] "))
      && (!(m.PageHeader? || m.TagsHeading? || m.TagLine? || m.ExceptionIn? || m.InnerException?) ==>
            StartsWith(r, "[INFO] "))
  {
  }

  /** The catch block writes to `Console.Error`, everything else to `Console.Out`. */
  function StreamOf(m: Message): Stream
  {
    if m.ExceptionIn? || m.InnerException? then Err else Out
  }

  function Line(m: Message): ConsoleLine
  {
    ConsoleLine(StreamOf(m), TextOf(m))
  }

  /** The messages as console lines. */
  function Render(ms: seq<Message>): seq<ConsoleLine>
  {
    seq(|ms|, i requires 0 <= i < |ms| => Line(ms[i]))
  }

  /** A line goes to the error stream exactly when its text starts with
      `[ERROR]`, so the error lines can be told apart in a log that holds both. */
  lemma ErrorLinesMarked(m: Message)
    ensures StreamOf(m) == Err <==> StartsWith(TextOf(m), "[ERROR]")
  {
    var t := TextOf(m);
    if StreamOf(m) == Err {
      var s := if m.ExceptionIn? then "Exception in " + m.page + ": " + m.text else "Inner exception: " + m.text;
      assert t == Error(s);
      assert t[..7] == "[ERROR]";
    } else {
      if m.PageHeader? {
        assert t[0] == '-';
      } else if m.TagsHeading? {
        assert t[0] == 'P';
      } else if m.TagLine? {
        assert t[0] == ' ';
      } else {
        // every other output line is an `[INFO]` line
        assert t[1] == 'I';
      }
    }
  }

  /** What the try block prints before it completes or throws, and what it throws. */
  datatype TryOutcome = TryOutcome(lines: seq<Message>, thrown: Option<Exception>)

  /** One line per tag, in the order given. */
  function TagMessages(ps: seq<Prediction>): seq<Message>
  {
    seq(|ps|, i requires 0 <= i < |ps| => TagLine(ps[i]))
  }

  /** The end of the try block, after the tags are listed: writing the annotated
      image when both flags are set, a note when only `--save-images` is. */
  function AnnotationStep(run: PageRun, saveImages: bool, verbose: bool, outputBase: string, pageName: string): TryOutcome
  {
    if saveImages && verbose then
      var started := [SavingAnnotated(AnnotatedPath(outputBase, pageName))];
      if run.annotation.Some? then TryOutcome(started, run.annotation)
      else TryOutcome(started + [AnnotatedSaved], None)
    else if saveImages then TryOutcome([SkippingAnnotation], None)
    else TryOutcome([], None)
  }

  /** The try block of `ProcessPage`, following the outcomes in `run`. */
  function TryBlock(run: PageRun, saveImages: bool, verbose: bool, outputBase: string, pageName: string): TryOutcome
  {
    match run.encoded
    case Throws(ex) => TryOutcome([EncodingPage], Some(ex))
    case Ok(size) =>
      match run.predicted
      case Throws(ex) => TryOutcome([EncodingPage, EncodedSize(size), SendingImage], Some(ex))
      case Ok(ps) =>
        var a := AnnotationStep(run, saveImages, verbose, outputBase, pageName);
        TryOutcome([EncodingPage, EncodedSize(size), SendingImage, TagsReturned(|ps|), TagsHeading]
                   + TagMessages(SortByProbability(ps)) + a.lines, a.thrown)
  }

  /** The catch block: the error line, and the inner exception's line if there is one. */
  function CatchBlock(pageName: string, thrown: Option<Exception>): seq<Message>
  {
    match thrown
    case None => []
    case Some(ex) =>
      [ExceptionIn(pageName, ex.text)] + (if ex.inner.Some? then [InnerException(ex.inner.value)] else [])
  }

  /** Everything `ProcessPage` writes to the console, in order. */
  function Transcript(run: PageRun, saveImages: bool, verbose: bool, outputBase: string,
                      pageName: string, elapsed: string): seq<Message>
  {
    var body := TryBlock(run, saveImages, verbose, outputBase, pageName);
    [PageHeader(pageName)] + body.lines + CatchBlock(pageName, body.thrown) + [DoneIn(elapsed)]
  }

  // ---- properties of the transcript ----

  /** The lines written to one stream. */
  function OnStream(t: seq<Message>, s: Stream): seq<Message>
  {
    if t == [] then [] else (if StreamOf(t[0]) == s then [t[0]] else []) + OnStream(t[1..], s)
  }

  lemma {:induction false} OnStreamAppend(a: seq<Message>, b: seq<Message>, s: Stream)
    ensures OnStream(a + b, s) == OnStream(a, s) + OnStream(b, s)
  {
    if a == [] {
      assert a + b == b;
    } else {
      assert (a + b)[0] == a[0];
      assert (a + b)[1..] == a[1..] + b;
      OnStreamAppend(a[1..], b, s);
    }
  }

  /** The stream that is not `s`. */
  function OtherStream(s: Stream): (r: Stream)
    ensures r != s
  {
    if s == Out then Err else Out
  }

  /** Lines that all go to one stream are all of that stream's lines, and
      the other stream has none of them. */
  lemma {:induction false} OnStreamUniform(t: seq<Message>, s: Stream)
    requires forall i :: 0 <= i < |t| ==> StreamOf(t[i]) == s
    ensures OnStream(t, s) == t
    ensures OnStream(t, OtherStream(s)) == []
  {
    if t != [] {
      OnStreamUniform(t[1..], s);
      assert t == [t[0]] + t[1..];
    }
  }

  /** Whether one of the page's outside calls fails, checked in the order the try block makes them. */
  predicate Fails(run: PageRun, annotates: bool)
  {
    run.encoded.Throws? || run.predicted.Throws? || (annotates && run.annotation.Some?)
  }

  /** The exception of the first call that fails. */
  function FirstFailure(run: PageRun, annotates: bool): Exception
    requires Fails(run, annotates)
  {
    if run.encoded.Throws? then run.encoded.ex
    else if run.predicted.Throws? then run.predicted.ex
    else run.annotation.value
  }

  /** The try block throws exactly when one of the calls fails, and then what
      that first failing call threw; it always starts with the encoding line. */
  lemma TryBlockThrows(run: PageRun, saveImages: bool, verbose: bool, outputBase: string, pageName: string)
    ensures var o := TryBlock(run, saveImages, verbose, outputBase, pageName);
      && (o.thrown.Some? <==> Fails(run, saveImages && verbose))
      && (o.thrown.Some? ==> o.thrown.value == FirstFailure(run, saveImages && verbose))
      && |o.lines| >= 1 && o.lines[0] == EncodingPage
  {
  }

  /** The try block writes nothing but `Console.Out` lines. */
  lemma TryBlockWritesOut(run: PageRun, saveImages: bool, verbose: bool, outputBase: string, pageName: string)
    ensures var o := TryBlock(run, saveImages, verbose, outputBase, pageName);
      forall i :: 0 <= i < |o.lines| ==> StreamOf(o.lines[i]) == Out
  {
  }

  /** A try block that completes has listed every returned tag, by
      non-increasing probability, right after its first five lines. */
  lemma TryBlockListsTags(run: PageRun, saveImages: bool, verbose: bool, outputBase: string, pageName: string)
    requires TryBlock(run, saveImages, verbose, outputBase, pageName).thrown.None?
    ensures run.encoded.Ok? && run.predicted.Ok?
    ensures var lines, sorted := TryBlock(run, saveImages, verbose, outputBase, pageName).lines,
                                 SortByProbability(run.predicted.value);
      && 5 + |sorted| <= |lines| && lines[5..5 + |sorted|] == TagMessages(sorted)
      && Descending(sorted)
      && forall p :: p in run.predicted.value ==> TagLine(p) in lines
  {
    var o := TryBlock(run, saveImages, verbose, outputBase, pageName);
    var ps := run.predicted.value;
    var sorted := SortByProbability(ps);
    SortByProbabilitySorts(ps);
    var first := [EncodingPage, EncodedSize(run.encoded.value), SendingImage, TagsReturned(|ps|), TagsHeading];
    var rest := AnnotationStep(run, saveImages, verbose, outputBase, pageName).lines;
    var tags := TagMessages(sorted);
    assert o.lines == first + tags + rest;
    forall p | p in ps
      ensures TagLine(p) in o.lines
    {
      assert p in multiset(sorted);
      var k :| 0 <= k < |sorted| && sorted[k] == p;
      assert tags[k] == TagLine(p);
      MiddleIndex(first, tags, rest, k);
    }
  }

  lemma MiddleIndex<T>(a: seq<T>, b: seq<T>, c: seq<T>, k: int)
    requires 0 <= k < |b|
    ensures (a + b + c)[|a| + k] == b[k]
  {
  }

  lemma CatchBlockOnStreams(pageName: string, thrown: Option<Exception>)
    ensures var c := CatchBlock(pageName, thrown);
      && (forall i :: 0 <= i < |c| ==> StreamOf(c[i]) == Err)
      && OnStream(c, Err) == c && OnStream(c, Out) == []
      && |c| == (if thrown.None? then 0 else if thrown.value.inner.Some? then 2 else 1)
  {
    var c := CatchBlock(pageName, thrown);
    assert forall i :: 0 <= i < |c| ==> StreamOf(c[i]) == Err;
    OnStreamUniform(c, Err);
  }

  /** The output lines, then the error lines, each keep their order apart. */
  lemma SplitOnStreams(a: seq<Message>, b: seq<Message>)
    requires forall i :: 0 <= i < |a| ==> StreamOf(a[i]) == Out
    requires forall i :: 0 <= i < |b| ==> StreamOf(b[i]) == Err
    ensures OnStream(a + b, Out) == a
    ensures OnStream(a + b, Err) == b
  {
    OnStreamUniform(a, Out);
    OnStreamUniform(b, Err);
    OnStreamAppend(a, b, Out);
    OnStreamAppend(a, b, Err);
    assert a + [] == a && [] + b == b;
  }

  /** A transcript framed by two output lines, with output lines and then
      error lines between them, splits into its two streams. */
  lemma FramedOnStreams(head: Message, lines: seq<Message>, catch: seq<Message>, done: Message)
    requires StreamOf(head) == Out && StreamOf(done) == Out
    requires forall i :: 0 <= i < |lines| ==> StreamOf(lines[i]) == Out
    requires forall i :: 0 <= i < |catch| ==> StreamOf(catch[i]) == Err
    ensures OnStream([head] + lines + catch + [done], Out) == [head] + lines + [done]
    ensures OnStream([head] + lines + catch + [done], Err) == catch
  {
    var a := [head] + lines;
    forall i | 0 <= i < |a|
      ensures StreamOf(a[i]) == Out
    {
      if i > 0 { assert a[i] == lines[i - 1]; }
    }
    SplitOnStreams(a, catch);
    FramedTail(a + catch, [done]);
  }

  /** Appending one output line adds it to the output stream only. */
  lemma FramedTail(b: seq<Message>, done: seq<Message>)
    requires |done| == 1 && StreamOf(done[0]) == Out
    ensures OnStream(b + done, Out) == OnStream(b, Out) + done
    ensures OnStream(b + done, Err) == OnStream(b, Err)
  {
    OnStreamUniform(done, Out);
    OnStreamAppend(b, done, Out);
    OnStreamAppend(b, done, Err);
    assert OnStream(b, Err) + [] == OnStream(b, Err);
  }

  /** The header and the `Done` line are always written, to the output, with
      the try block's lines between them; the error stream gets exactly the
      catch block's lines, which are there exactly when one of the calls
      failed, one more when its exception has an inner one. */
  lemma TranscriptShape(run: PageRun, saveImages: bool, verbose: bool, outputBase: string,
                        pageName: string, elapsed: string)
    ensures var t := Transcript(run, saveImages, verbose, outputBase, pageName, elapsed);
            var o := TryBlock(run, saveImages, verbose, outputBase, pageName);
      && t[0] == PageHeader(pageName)
      && t[|t| - 1] == DoneIn(elapsed)
      && OnStream(t, Out) == [PageHeader(pageName)] + o.lines + [DoneIn(elapsed)]
      && OnStream(t, Err) == CatchBlock(pageName, o.thrown)
      && (Fails(run, saveImages && verbose) ==>
            |OnStream(t, Err)| == (if FirstFailure(run, saveImages && verbose).inner.Some? then 2 else 1))
      && (!Fails(run, saveImages && verbose) ==> OnStream(t, Err) == [])
  {
    var o := TryBlock(run, saveImages, verbose, outputBase, pageName);
    var catch := CatchBlock(pageName, o.thrown);
    TryBlockThrows(run, saveImages, verbose, outputBase, pageName);
    TryBlockWritesOut(run, saveImages, verbose, outputBase, pageName);
    CatchBlockOnStreams(pageName, o.thrown);
    FramedOnStreams(PageHeader(pageName), o.lines, catch, DoneIn(elapsed));
  }

  // ---- the annotated image's labels ----

  /** One `DrawText(text, x, y)`. */
  datatype TextDraw = TextDraw(text: string, x: int, y: int)

  /** The label layout of `AnnotateTags`: one label per tag, in the order given,
      at the left margin 10, the first at y = 30 and each next one 30 lower. */
  method AnnotateTags(tags: seq<Prediction>) returns (draws: seq<TextDraw>)
    ensures |draws| == |tags|
    ensures forall i :: 0 <= i < |tags| ==> draws[i] == TextDraw(TagLabel(tags[i]), 10, 30 + 30 * i)
  {
    draws := [];
    var y := 30;
    for i := 0 to |tags|
      invariant |draws| == i
      invariant y == 30 + 30 * i
      invariant forall k :: 0 <= k < i ==> draws[k] == TextDraw(TagLabel(tags[k]), 10, 30 + 30 * k)
    {
      draws := draws + [TextDraw(TagLabel(tags[i]), 10, y)];
      y := y + 30;
    }
  }

  /** `draws` lays out one label per tag of `tags`, as `AnnotateTags` does. */
  predicate LaysOut(draws: seq<TextDraw>, tags: seq<Prediction>)
  {
    && |draws| == |tags|
    && forall i :: 0 <= i < |tags| ==> draws[i] == TextDraw(TagLabel(tags[i]), 10, 30 + 30 * i)
  }

  // ---- the page step ----

  /** Writes one line to the stream it belongs to. */
  method Say(con: Console, io: Writers, m: Message, ghost before: seq<Message>, ghost base: seq<Event>)
    requires io.Valid() && io.Usable(if StreamOf(m) == Out then con.out else con.err)
    requires io.trace == base + Emit(con.out, con.err, Render(before))
    modifies io
    ensures io.Valid()
    ensures io.trace == base + Emit(con.out, con.err, Render(before + [m]))
    ensures io.files == old(io.files) && io.closed == old(io.closed)
  {
    assert Render(before + [m]) == Render(before) + [Line(m)];
    con.Write(io, Line(m), Render(before), base);
  }

  /** The `foreach` over the tags: one line per tag, in the order given. */
  method ListTags(con: Console, io: Writers, tags: seq<Prediction>, ghost before: seq<Message>, ghost base: seq<Event>)
    requires io.Valid() && io.Usable(con.out)
    requires io.trace == base + Emit(con.out, con.err, Render(before))
    modifies io
    ensures io.Valid()
    ensures io.files == old(io.files) && io.closed == old(io.closed)
    ensures io.trace == base + Emit(con.out, con.err, Render(before + TagMessages(tags)))
  {
    assert before + TagMessages(tags[..0]) == before;
    for i := 0 to |tags|
      invariant io.Valid()
      invariant io.files == old(io.files) && io.closed == old(io.closed)
      invariant io.trace == base + Emit(con.out, con.err, Render(before + TagMessages(tags[..i])))
    {
      assert before + TagMessages(tags[..i + 1]) == before + TagMessages(tags[..i]) + [TagLine(tags[i])];
      Say(con, io, TagLine(tags[i]), before + TagMessages(tags[..i]), base);
    }
    assert tags[..|tags|] == tags;
  }

  /** Both flags set: announces the annotated image, draws the labels and
      either reports the image saved or throws what writing it threw. The
      labels are those of `ps`, in the order given. */
  method SaveAnnotated(con: Console, io: Writers, run: PageRun, ps: seq<Prediction>, outJpg: string,
                       ghost before: seq<Message>, ghost base: seq<Event>)
    returns (thrown: Option<Exception>, draws: seq<TextDraw>)
    requires io.Valid() && io.Usable(con.out)
    requires io.trace == base + Emit(con.out, con.err, Render(before))
    modifies io
    ensures io.Valid()
    ensures io.files == old(io.files) && io.closed == old(io.closed)
    ensures thrown == run.annotation
    ensures LaysOut(draws, ps)
    ensures io.trace == base + Emit(con.out, con.err, Render(
              before + [SavingAnnotated(outJpg)] + (if run.annotation.Some? then [] else [AnnotatedSaved])))
  {
    Say(con, io, SavingAnnotated(outJpg), before, base);
    draws := AnnotateTags(ps);
    if run.annotation.Some? {
      assert before + [SavingAnnotated(outJpg)] + [] == before + [SavingAnnotated(outJpg)];
      thrown := run.annotation;
    } else {
      Say(con, io, AnnotatedSaved, before + [SavingAnnotated(outJpg)], base);
      thrown := None;
    }
  }

  /** The last part of the try block: the annotated image, labelled with the
      predictions `ps` in the order given, or the note that it is skipped. */
  method AnnotateStep(con: Console, io: Writers, run: PageRun, ps: seq<Prediction>, saveImages: bool, verbose: bool,
                      outputBase: string, pageName: string, ghost before: seq<Message>, ghost base: seq<Event>)
    returns (thrown: Option<Exception>, draws: seq<TextDraw>)
    requires io.Valid() && io.Usable(con.out)
    requires io.trace == base + Emit(con.out, con.err, Render(before))
    modifies io
    ensures io.Valid()
    ensures io.files == old(io.files) && io.closed == old(io.closed)
    ensures thrown == AnnotationStep(run, saveImages, verbose, outputBase, pageName).thrown
    ensures saveImages && verbose ==> LaysOut(draws, ps)
    ensures !(saveImages && verbose) ==> draws == []
    ensures io.trace == base + Emit(con.out, con.err, Render(before + AnnotationStep(run, saveImages, verbose, outputBase, pageName).lines))
  {
    draws := [];
    if saveImages && verbose {
      var outJpg := AnnotatedPath(outputBase, pageName);
      thrown, draws := SaveAnnotated(con, io, run, ps, outJpg, before, base);
      ghost var saved := if run.annotation.Some? then [] else [AnnotatedSaved];
      assert before + [SavingAnnotated(outJpg)] + saved
             == before + AnnotationStep(run, saveImages, verbose, outputBase, pageName).lines;
    } else if saveImages {
      Say(con, io, SkippingAnnotation, before, base);
      thrown := None;
    } else {
      assert before + [] == before;
      thrown := None;
    }
  }

  /** The try block's lines, one write at a time, when the prediction request fails. */
  lemma TryLinesUnpredicted(run: PageRun, saveImages: bool, verbose: bool, outputBase: string, pageName: string,
                            before: seq<Message>)
    requires run.encoded.Ok? && run.predicted.Throws?
    ensures before + TryBlock(run, saveImages, verbose, outputBase, pageName).lines
            == before + [EncodingPage] + [EncodedSize(run.encoded.value)] + [SendingImage]
  {
  }

  /** The try block's lines, one write at a time, when tags come back. */
  lemma TryLinesPredicted(run: PageRun, saveImages: bool, verbose: bool, outputBase: string, pageName: string,
                          before: seq<Message>)
    requires run.encoded.Ok? && run.predicted.Ok?
    ensures var ps := run.predicted.value;
      before + TryBlock(run, saveImages, verbose, outputBase, pageName).lines
      == before + [EncodingPage] + [EncodedSize(run.encoded.value)] + [SendingImage] + [TagsReturned(|ps|)] + [TagsHeading]
         + TagMessages(SortByProbability(ps)) + AnnotationStep(run, saveImages, verbose, outputBase, pageName).lines
  {
  }

  /** The try block: writes its lines to `Console.Out` up to the call that
      throws, if one does, and returns what was thrown. The annotated image, when
      one is drawn, is labelled with the predictions as returned, not sorted. */
  method TryStep(con: Console, io: Writers, run: PageRun, saveImages: bool, verbose: bool,
                 outputBase: string, pageName: string, ghost before: seq<Message>, ghost base: seq<Event>)
    returns (thrown: Option<Exception>, draws: seq<TextDraw>)
    requires io.Valid() && io.Usable(con.out)
    requires io.trace == base + Emit(con.out, con.err, Render(before))
    modifies io
    ensures io.Valid()
    ensures io.files == old(io.files) && io.closed == old(io.closed)
    ensures thrown == TryBlock(run, saveImages, verbose, outputBase, pageName).thrown
    ensures run.encoded.Ok? && run.predicted.Ok? && saveImages && verbose ==> LaysOut(draws, run.predicted.value)
    ensures !(run.encoded.Ok? && run.predicted.Ok? && saveImages && verbose) ==> draws == []
    ensures io.trace == base + Emit(con.out, con.err, Render(before + TryBlock(run, saveImages, verbose, outputBase, pageName).lines))
  {
    draws := [];
    ghost var t := before + [EncodingPage];
    Say(con, io, EncodingPage, before, base);
    match run.encoded
    case Throws(ex) =>
      thrown := Some(ex);
    case Ok(size) =>
      Say(con, io, EncodedSize(size), t, base);
      t := t + [EncodedSize(size)];
      Say(con, io, SendingImage, t, base);
      t := t + [SendingImage];
      match run.predicted
      case Throws(ex) =>
        TryLinesUnpredicted(run, saveImages, verbose, outputBase, pageName, before);
        thrown := Some(ex);
      case Ok(ps) =>
        thrown, draws := ReportPrediction(con, io, run, ps, saveImages, verbose, outputBase, pageName, t, base);
        TryLinesPredicted(run, saveImages, verbose, outputBase, pageName, before);
  }

  /** The try block once the prediction `ps` has come back: the count, the
      heading, the tags by descending probability, then the annotation step,
      which labels the image with `ps` as returned. */
  method ReportPrediction(con: Console, io: Writers, run: PageRun, ps: seq<Prediction>, saveImages: bool, verbose: bool,
                          outputBase: string, pageName: string, ghost before: seq<Message>, ghost base: seq<Event>)
    returns (thrown: Option<Exception>, draws: seq<TextDraw>)
    requires io.Valid() && io.Usable(con.out)
    requires io.trace == base + Emit(con.out, con.err, Render(before))
    modifies io
    ensures io.Valid()
    ensures io.files == old(io.files) && io.closed == old(io.closed)
    ensures thrown == AnnotationStep(run, saveImages, verbose, outputBase, pageName).thrown
    ensures saveImages && verbose ==> LaysOut(draws, ps)
    ensures !(saveImages && verbose) ==> draws == []
    ensures io.trace == base + Emit(con.out, con.err, Render(
              before + [TagsReturned(|ps|)] + [TagsHeading] + TagMessages(SortByProbability(ps))
              + AnnotationStep(run, saveImages, verbose, outputBase, pageName).lines))
  {
    ghost var t := before;
    Say(con, io, TagsReturned(|ps|), t, base);
    t := t + [TagsReturned(|ps|)];
    Say(con, io, TagsHeading, t, base);
    t := t + [TagsHeading];
    var sorted := SortByProbability(ps);
    ListTags(con, io, sorted, t, base);
    t := t + TagMessages(sorted);
    thrown, draws := AnnotateStep(con, io, run, ps, saveImages, verbose, outputBase, pageName, t, base);
  }

  /** The catch block: the error line and, if there is one, the inner
      exception's line, both on `Console.Error`. */
  method CatchStep(con: Console, io: Writers, pageName: string, thrown: Option<Exception>,
                   ghost before: seq<Message>, ghost base: seq<Event>)
    requires io.Valid() && io.Usable(con.err)
    requires io.trace == base + Emit(con.out, con.err, Render(before))
    modifies io
    ensures io.Valid()
    ensures io.files == old(io.files) && io.closed == old(io.closed)
    ensures io.trace == base + Emit(con.out, con.err, Render(before + CatchBlock(pageName, thrown)))
  {
    if thrown.Some? {
      var ex := thrown.value;
      Say(con, io, ExceptionIn(pageName, ex.text), before, base);
      if ex.inner.Some? {
        Say(con, io, InnerException(ex.inner.value), before + [ExceptionIn(pageName, ex.text)], base);
        assert before + [ExceptionIn(pageName, ex.text)] + [InnerException(ex.inner.value)]
            == before + CatchBlock(pageName, thrown);
      } else {
        assert [ExceptionIn(pageName, ex.text)] == CatchBlock(pageName, thrown);
      }
    } else {
      assert before + CatchBlock(pageName, thrown) == before;
    }
  }

  /** The page's lines through whatever the console's streams are: the
      header, the try block, the catch block if it threw, and the `finally`
      block's `Done` line. */
  method WritePage(con: Console, io: Writers, run: PageRun, saveImages: bool, verbose: bool,
                   outputBase: string, pageName: string, elapsed: string)
    requires io.Valid() && io.Usable(con.out) && io.Usable(con.err)
    modifies io
    ensures io.Valid()
    ensures io.files == old(io.files) && io.closed == old(io.closed)
    ensures io.trace == old(io.trace) + Emit(con.out, con.err,
                                             Render(Transcript(run, saveImages, verbose, outputBase, pageName, elapsed)))
  {
    ghost var base := io.trace;
    assert Render([]) == [];
    Say(con, io, PageHeader(pageName), [], base);
    ghost var head := [PageHeader(pageName)];
    var thrown, _ := TryStep(con, io, run, saveImages, verbose, outputBase, pageName, head, base);
    ghost var body := TryBlock(run, saveImages, verbose, outputBase, pageName);
    CatchStep(con, io, pageName, thrown, head + body.lines, base);
    Say(con, io, DoneIn(elapsed), head + body.lines + CatchBlock(pageName, thrown), base);
    assert head + body.lines + CatchBlock(pageName, thrown) + [DoneIn(elapsed)]
        == Transcript(run, saveImages, verbose, outputBase, pageName, elapsed);
  }

  /** `ProcessPage`: opens the page's log, points `Console.Out` and
      `Console.Error` at tees reaching the original stream, the aggregator and
      the log, writes the page's transcript, then restores both streams and
      disposes the log, whether the try block completed or threw. When the
      aggregator is not already behind the console, the log receives exactly
      the transcript, the aggregator receives it after what it already had,
      and every other writer receives what the unredirected console would
      have passed it. */
  method ProcessPage(con: Console, io: Writers, run: PageRun, saveImages: bool, verbose: bool,
                     outputBase: string, pageName: string, agg: WriterId, elapsed: string)
    returns (log: WriterId)
    requires io.Valid() && io.Usable(con.out) && io.Usable(con.err) && io.Usable(Leaf(agg))
    modifies con, io
    ensures io.Valid()
    ensures con.out == old(con.out) && con.err == old(con.err)
    ensures log == FileWriter(|old(io.files)|)
    ensures io.files == old(io.files) + [Paths.Combine(outputBase, pageName + ".out")]
    ensures io.closed == old(io.closed) + {log}
    ensures forall s :: old(io.Usable(s)) ==> io.Usable(s)
    ensures io.trace == old(io.trace) + Emit(Redirected(old(con.out), agg, log), Redirected(old(con.err), agg, log),
                                             Render(Transcript(run, saveImages, verbose, outputBase, pageName, elapsed)))
    ensures agg !in Leaves(con.out) && agg !in Leaves(con.err) ==>
      var lines := Render(Transcript(run, saveImages, verbose, outputBase, pageName, elapsed));
      && Received(io.trace, log) == AsCalls(lines)
      && Received(io.trace, agg) == Received(old(io.trace), agg) + AsCalls(lines)
      && forall w :: w != agg && w != log ==>
           Received(io.trace, w) == Received(old(io.trace), w) + Received(Emit(con.out, con.err, lines), w)
  {
    var origOut, origErr := con.out, con.err;
    ghost var start := io.trace;
    io.NextReceivedNothing();
    io.NextNotInUsable(origOut);
    io.NextNotInUsable(origErr);
    io.NextNotInUsable(Leaf(agg));
    forall s | io.Usable(s)
      ensures FileWriter(|io.files|) !in Leaves(s)
    {
      io.NextNotInUsable(s);
    }
    log := io.Open(Paths.Combine(outputBase, pageName + ".out"));
    var allOut := Redirected(origOut, agg, log);
    con.SetOut(allOut);
    var allErr := Redirected(origErr, agg, log);
    con.SetError(allErr);
    io.UsableRedirected(origOut, agg, log);
    io.UsableRedirected(origErr, agg, log);

    WritePage(con, io, run, saveImages, verbose, outputBase, pageName, elapsed);
    // finally
    con.SetOut(origOut);
    con.SetError(origErr);
    // the end of the log writer's `using` scope
    io.Close(log);
    RedirectedRun(start, io.trace, origOut, origErr, agg, log,
                  Render(Transcript(run, saveImages, verbose, outputBase, pageName, elapsed)));
  }
}
