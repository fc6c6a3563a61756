/** `Main` and `ProcessImageFile`: choosing the input, building the list of
    image entries, and running every page of every entry through `ProcessPage`
    with the shared page counter and the batch's aggregator log. */
module Program {
  import opened Wrappers
  import opened Text
  import opened Sinks
  import opened Raster
  import opened Splitter
  import opened PageProcessor
  import Paths

  const DefaultFolder: string := "images"
  const OutputFolder: string := "image_out"

  /** One image to process: its path and whether it is a two-page spread. */
  datatype ImageEntry = ImageEntry(path: string, split: bool)

  // ---- the command line ----

  /** `args.Any(a => a.Equals(flag, StringComparison.OrdinalIgnoreCase))`. */
  function HasFlag(args: seq<string>, flag: string): (b: bool)
    ensures b <==> exists i :: 0 <= i < |args| && EqualsIgnoreCase(args[i], flag)
  {
    if args == [] then false
    else if EqualsIgnoreCase(args[0], flag) then true
    else
      var b := HasFlag(args[1..], flag);
      assert forall i :: 1 <= i < |args| ==> args[i] == args[1..][i - 1];
      b
  }

  /** The position of the first argument that does not start with `--`. */
  function FirstNonFlag(args: seq<string>): (r: Option<nat>)
    ensures r.Some? ==>
      && r.value < |args| && !StartsWith(args[r.value], "--")
      && forall j :: 0 <= j < r.value ==> StartsWith(args[j], "--")
    ensures r.None? ==> forall j :: 0 <= j < |args| ==> StartsWith(args[j], "--")
  {
    if args == [] then None
    else if !StartsWith(args[0], "--") then Some(0)
    else
      match FirstNonFlag(args[1..])
      case None =>
        assert forall j :: 1 <= j < |args| ==> args[j] == args[1..][j - 1];
        None
      case Some(k) =>
        assert forall j :: 1 <= j <= k + 1 ==> args[j] == args[1..][j - 1];
        Some(k + 1)
  }

  /** `args.FirstOrDefault(a => !a.StartsWith("--")) ?? DefaultFolder`: the
      first argument not starting with `--`, and `images` when every argument
      does. */
  function InputArgument(args: seq<string>): (r: string)
    ensures (forall j :: 0 <= j < |args| ==> StartsWith(args[j], "--")) ==> r == DefaultFolder
    ensures forall k :: 0 <= k < |args| && !StartsWith(args[k], "--") && (forall j :: 0 <= j < k ==> StartsWith(args[j], "--"))
                        ==> r == args[k]
  {
    match FirstNonFlag(args)
    case None => DefaultFolder
    case Some(k) => args[k]
  }

  // ---- the entries of a manifest ----

  /** An unrooted manifest path is taken relative to the manifest's folder. */
  function NormalizedEntry(e: ImageEntry, folder: string): (r: ImageEntry)
    ensures r.split == e.split
    ensures Paths.IsPathRooted(e.path) ==> r == e
    ensures Paths.IsPathRooted(folder) ==> Paths.IsPathRooted(r.path)
    ensures !Paths.IsPathRooted(e.path) && e.path == "" ==> r.path == folder
    ensures !Paths.IsPathRooted(e.path) && folder == "" ==> r.path == e.path
    ensures !Paths.IsPathRooted(e.path) && folder != "" && e.path != "" ==>
      && |folder| + |e.path| <= |r.path| <= |folder| + |e.path| + 1
      && r.path[..|folder|] == folder && r.path[|r.path| - |e.path|..] == e.path
      && r.path[|r.path| - |e.path| - 1] == Paths.Separator
      && (folder[|folder| - 1] == Paths.Separator <==> |r.path| == |folder| + |e.path|)
  {
    if Paths.IsPathRooted(e.path) then e
    else
      Paths.CombineShape(folder, e.path);
      ImageEntry(Paths.Combine(folder, e.path), e.split)
  }

  function Normalized(es: seq<ImageEntry>, folder: string): seq<ImageEntry>
  {
    seq(|es|, i requires 0 <= i < |es| => NormalizedEntry(es[i], folder))
  }

  /** The loop of `Main` that rewrites each manifest entry's path in place. */
  method NormalizeManifestPaths(entries: array<ImageEntry>, folder: string)
    modifies entries
    ensures entries[..] == Normalized(old(entries[..]), folder)
  {
    for i := 0 to entries.Length
      invariant forall k :: 0 <= k < i ==> entries[k] == NormalizedEntry(old(entries[k]), folder)
      invariant forall k :: i <= k < entries.Length ==> entries[k] == old(entries[k])
    {
      var e := entries[i];
      if !Paths.IsPathRooted(e.path) {
        e := e.(path := Paths.Combine(folder, e.path));
      }
      entries[i] := e;
    }
  }

  /** Normalising keeps the count, the order and every `Split` flag, and
      against a rooted folder leaves every path rooted. */
  lemma NormalizedShape(es: seq<ImageEntry>, folder: string)
    ensures var r := Normalized(es, folder);
      && |r| == |es|
      && (forall i :: 0 <= i < |es| ==> r[i].split == es[i].split)
      && (forall i :: 0 <= i < |es| && Paths.IsPathRooted(es[i].path) ==> r[i] == es[i])
      && (Paths.IsPathRooted(folder) ==> forall i :: 0 <= i < |es| ==> Paths.IsPathRooted(r[i].path))
  {
  }

  /** Against a rooted folder, a second normalisation changes nothing. */
  lemma NormalizeIdempotent(es: seq<ImageEntry>, folder: string)
    requires Paths.IsPathRooted(folder)
    ensures Normalized(Normalized(es, folder), folder) == Normalized(es, folder)
  {
    var once := Normalized(es, folder);
    forall i | 0 <= i < |es|
      ensures NormalizedEntry(once[i], folder) == once[i]
    {
      assert Paths.IsPathRooted(once[i].path);
    }
  }

  // ---- the entries of a directory ----

  /** The extension filter of `Main`: `.jpg` or `.jpeg` in any case. */
  predicate IsJpeg(f: string)
  {
    var ext := ToLower(Paths.GetExtension(f));
    ext == ".jpg" || ext == ".jpeg"
  }

  /** The directory's files that pass the filter, in enumeration order, each a spread. */
  function DirectoryEntries(files: seq<string>): (r: seq<ImageEntry>)
    ensures |r| <= |files|
    ensures forall e :: e in r ==> e.split && e.path in files && IsJpeg(e.path)
    ensures forall f :: f in files && IsJpeg(f) ==> ImageEntry(f, true) in r
  {
    if files == [] then []
    else
      var rest := DirectoryEntries(files[1..]);
      assert forall f :: f in files ==> f == files[0] || f in files[1..];
      (if IsJpeg(files[0]) then [ImageEntry(files[0], true)] else []) + rest
  }

  /** The filter keeps the enumeration order: the entries of two listings
      one after the other are the entries of the first, then of the second. */
  lemma {:induction false} DirectoryEntriesAppend(a: seq<string>, b: seq<string>)
    ensures DirectoryEntries(a + b) == DirectoryEntries(a) + DirectoryEntries(b)
  {
    if a == [] {
      assert a + b == b;
    } else {
      assert (a + b)[0] == a[0];
      assert (a + b)[1..] == a[1..] + b;
      DirectoryEntriesAppend(a[1..], b);
    }
  }

  // ---- pages and logs ----

  /** 2 for a spread, 1 otherwise. */
  function PageCount(e: ImageEntry): nat
  {
    |Suffixes(e.split)|
  }

  /** The number of pages in `es`. */
  function TotalPages(es: seq<ImageEntry>): nat
  {
    if es == [] then 0 else TotalPages(es[..|es| - 1]) + PageCount(es[|es| - 1])
  }

  /** There are between one and two pages per entry, two exactly when every entry is a spread. */
  lemma {:induction false} TotalPagesBounds(es: seq<ImageEntry>)
    ensures |es| <= TotalPages(es) <= 2 * |es|
    ensures TotalPages(es) == 2 * |es| <==> forall i :: 0 <= i < |es| ==> es[i].split
  {
    if es != [] {
      var init := es[..|es| - 1];
      TotalPagesBounds(init);
      assert forall i :: 0 <= i < |init| ==> init[i] == es[i];
      if !es[|es| - 1].split {
        assert TotalPages(es) < 2 * |es|;
      }
    }
  }

  /** The page names of an entry: its file name without extension, plus `_L`
      and `_R` for a spread. */
  function EntryPages(e: ImageEntry): seq<string>
  {
    PageNames(Paths.GetFileNameWithoutExtension(e.path), e.split)
  }

  /** The path of each page's `.out` log. */
  function LogPaths(outputBase: string, names: seq<string>): seq<string>
  {
    seq(|names|, i requires 0 <= i < |names| => Paths.Combine(outputBase, names[i] + ".out"))
  }

  /** The page logs of all the entries, in processing order. */
  function BatchLogs(outputBase: string, es: seq<ImageEntry>): seq<string>
  {
    if es == [] then []
    else BatchLogs(outputBase, es[..|es| - 1]) + LogPaths(outputBase, EntryPages(es[|es| - 1]))
  }

  /** One log per page. */
  lemma {:induction false} BatchLogsLength(outputBase: string, es: seq<ImageEntry>)
    ensures |BatchLogs(outputBase, es)| == TotalPages(es)
  {
    if es != [] {
      BatchLogsLength(outputBase, es[..|es| - 1]);
    }
  }

  /** The file writers numbered `base` up to, not including, `base + n`. */
  function Logs(base: nat, n: nat): set<WriterId>
  {
    set k: nat | base <= k < base + n :: FileWriter(k)
  }

  lemma LogsNext(base: nat, n: nat, next: nat)
    requires next == base + n
    ensures Logs(base, n) + {FileWriter(next)} == Logs(base, n + 1)
  {
    assert FileWriter(next) in Logs(base, n + 1);
  }

  // ---- the pages' events ----

  /** The command-line flags that reach `ProcessPage`, and the output folder. */
  datatype Options = Options(saveImages: bool, verbose: bool, outputBase: string)

  /** The outcomes of the outside calls for the page with a given number, and
      the time it took, as the `Done` line renders it. */
  datatype Services = Services(recognize: nat -> PageRun, pageTime: nat -> string)

  /** What the page with number `number` and name `name` writes to the console. */
  function PageTranscript(opts: Options, svc: Services, number: nat, name: string): seq<Message>
  {
    Transcript(svc.recognize(number), opts.saveImages, opts.verbose, opts.outputBase, name, svc.pageTime(number))
  }

  /** The console lines of page number `n` named `name`. */
  ghost function PageLines(opts: Options, svc: Services): (nat, string) -> seq<ConsoleLine>
  {
    (n: nat, name: string) => Render(PageTranscript(opts, svc, n, name))
  }

  /** `ls` is what the pages `names` write to the console when page number `n`
      named `name` writes `w(n, name)`, the first page numbered `pageBase + 1`. */
  ghost predicate PagesWrote(ls: seq<seq<ConsoleLine>>, w: (nat, string) -> seq<ConsoleLine>, pageBase: nat, names: seq<string>)
  {
    && |ls| == |names|
    && forall k :: 0 <= k < |names| ==> ls[k] == w(pageBase + k + 1, names[k])
  }

  /** One more page's lines: page `i` of `names` is number `n`. */
  lemma PagesWroteSnoc(ls: seq<seq<ConsoleLine>>, lines: seq<ConsoleLine>, w: (nat, string) -> seq<ConsoleLine>,
                       pageBase: nat, names: seq<string>, i: nat, n: nat)
    requires i < |names| && n == pageBase + i + 1 && PagesWrote(ls, w, pageBase, names[..i])
    requires lines == w(n, names[i])
    ensures PagesWrote(ls + [lines], w, pageBase, names[..i + 1])
  {
    forall k | 0 <= k < i + 1
      ensures (ls + [lines])[k] == w(pageBase + k + 1, names[..i + 1][k])
    {
      if k < i {
        assert names[..i][k] == names[..i + 1][k];
      }
    }
  }

  /** The events of processing pages that write `pages` to the console, the
      first with log `FileWriter(logBase)`, each under `ProcessPage`'s redirection. */
  function PagesEvents(out: Sink, err: Sink, agg: WriterId, logBase: nat, pages: seq<seq<ConsoleLine>>): seq<Event>
  {
    if pages == [] then []
    else
      var k := |pages| - 1;
      PagesEvents(out, err, agg, logBase, pages[..k])
      + Emit(Redirected(out, agg, FileWriter(logBase + k)), Redirected(err, agg, FileWriter(logBase + k)), pages[k])
  }

  lemma TakeNext<T>(s: seq<T>, i: nat)
    requires i < |s|
    ensures s[..i + 1] == s[..i] + [s[i]]
  {
  }

  lemma AppendAssoc<T>(a: seq<T>, b: seq<T>, c: seq<T>)
    ensures a + (b + c) == (a + b) + c
  {
  }

  /** The trace after one more page, from the trace before it. */
  lemma PagesTraceStep(out: Sink, err: Sink, agg: WriterId, logBase: nat, init: seq<seq<ConsoleLine>>,
                       last: seq<ConsoleLine>, t0: seq<Event>, t1: seq<Event>, t2: seq<Event>)
    requires t1 == t0 + PagesEvents(out, err, agg, logBase, init)
    requires t2 == t1 + Emit(Redirected(out, agg, FileWriter(logBase + |init|)),
                             Redirected(err, agg, FileWriter(logBase + |init|)), last)
    ensures t2 == t0 + PagesEvents(out, err, agg, logBase, init + [last])
  {
    var s := init + [last];
    assert s[..|s| - 1] == init;
    AppendAssoc(t0, PagesEvents(out, err, agg, logBase, init),
                Emit(Redirected(out, agg, FileWriter(logBase + |init|)), Redirected(err, agg, FileWriter(logBase + |init|)), last));
  }

  /** The open files after one more page's log. */
  lemma LogPathsStep(outputBase: string, names: seq<string>, i: nat, f0: seq<string>, f1: seq<string>, f2: seq<string>)
    requires i < |names|
    requires f1 == f0 + LogPaths(outputBase, names[..i])
    requires f2 == f1 + [Paths.Combine(outputBase, names[i] + ".out")]
    ensures f2 == f0 + LogPaths(outputBase, names[..i + 1])
  {
    assert LogPaths(outputBase, names[..i + 1]) == LogPaths(outputBase, names[..i]) + [Paths.Combine(outputBase, names[i] + ".out")];
  }

  /** `lss` is what the pages of each entry of `es` write, entry by entry, the
      pages numbered on from one across the batch. */
  ghost predicate BatchWrote(lss: seq<seq<seq<ConsoleLine>>>, w: (nat, string) -> seq<ConsoleLine>, es: seq<ImageEntry>)
  {
    && |lss| == |es|
    && (es != [] ==>
         var k := |es| - 1;
         && BatchWrote(lss[..k], w, es[..k])
         && PagesWrote(lss[k], w, TotalPages(es[..k]), EntryPages(es[k])))
  }

  /** One more entry's lines. */
  lemma BatchWroteSnoc(lss: seq<seq<seq<ConsoleLine>>>, ls: seq<seq<ConsoleLine>>, w: (nat, string) -> seq<ConsoleLine>,
                       init: seq<ImageEntry>, e: ImageEntry)
    requires BatchWrote(lss, w, init)
    requires PagesWrote(ls, w, TotalPages(init), EntryPages(e))
    ensures BatchWrote(lss + [ls], w, init + [e])
  {
    assert (lss + [ls])[..|lss|] == lss;
    assert (init + [e])[..|init|] == init;
  }

  /** The number of pages in the entries `lss`. */
  function PagesIn(lss: seq<seq<seq<ConsoleLine>>>): nat
  {
    if lss == [] then 0 else PagesIn(lss[..|lss| - 1]) + |lss[|lss| - 1]|
  }

  /** An entry's lines hold one page's lines per page. */
  lemma {:induction false} BatchWrotePages(lss: seq<seq<seq<ConsoleLine>>>, w: (nat, string) -> seq<ConsoleLine>,
                                           es: seq<ImageEntry>)
    requires BatchWrote(lss, w, es)
    ensures PagesIn(lss) == TotalPages(es)
  {
    if es != [] {
      var k := |es| - 1;
      BatchWrotePages(lss[..k], w, es[..k]);
    }
  }

  /** The events of processing entries whose pages write `lss`, one entry after
      the other, the first page with log `FileWriter(logBase)`. */
  function BatchEvents(out: Sink, err: Sink, agg: WriterId, logBase: nat, lss: seq<seq<seq<ConsoleLine>>>): seq<Event>
  {
    if lss == [] then []
    else
      var k := |lss| - 1;
      BatchEvents(out, err, agg, logBase, lss[..k]) + PagesEvents(out, err, agg, logBase + PagesIn(lss[..k]), lss[k])
  }

  /** The pages of one more entry come after those of the entries before it. */
  lemma TotalPagesStep(es: seq<ImageEntry>, i: nat)
    requires i < |es|
    ensures TotalPages(es[..i + 1]) == TotalPages(es[..i]) + PageCount(es[i])
  {
    assert es[..i + 1][..i] == es[..i];
  }

  /** The trace after one more entry, from the trace before it. */
  lemma BatchTraceStep(out: Sink, err: Sink, agg: WriterId, logBase: nat, init: seq<seq<seq<ConsoleLine>>>,
                       last: seq<seq<ConsoleLine>>, logAt: nat, t0: seq<Event>, t1: seq<Event>, t2: seq<Event>)
    requires logAt == logBase + PagesIn(init)
    requires t1 == t0 + BatchEvents(out, err, agg, logBase, init)
    requires t2 == t1 + PagesEvents(out, err, agg, logAt, last)
    ensures t2 == t0 + BatchEvents(out, err, agg, logBase, init + [last])
  {
    var s := init + [last];
    assert s[..|s| - 1] == init;
    AppendAssoc(t0, BatchEvents(out, err, agg, logBase, init), PagesEvents(out, err, agg, logBase + PagesIn(init), last));
  }

  /** The open files after one more entry's logs. */
  lemma BatchLogsStep(outputBase: string, es: seq<ImageEntry>, i: nat, f0: seq<string>, f1: seq<string>, f2: seq<string>)
    requires i < |es|
    requires f1 == f0 + BatchLogs(outputBase, es[..i])
    requires f2 == f1 + LogPaths(outputBase, EntryPages(es[i]))
    ensures f2 == f0 + BatchLogs(outputBase, es[..i + 1])
  {
    assert es[..i + 1][..i] == es[..i];
    AppendAssoc(f0, BatchLogs(outputBase, es[..i]), LogPaths(outputBase, EntryPages(es[i])));
  }

  /** Consecutive ranges of writers join. */
  lemma LogsJoin(base: nat, a: nat, b: nat, next: nat)
    requires next == base + a
    ensures Logs(base, a) + Logs(next, b) == Logs(base, a + b)
  {
  }

  /** The files of one more entry: from the open and closed files before it
      and the logs its pages added, those after it. */
  lemma EntryFilesStep(outputBase: string, es: seq<ImageEntry>, i: nat, entry: ImageEntry, pageCount: nat,
                       f0: seq<string>, f1: seq<string>, f2: seq<string>, c0: set<WriterId>, c1: set<WriterId>, c2: set<WriterId>)
    requires i < |es| && es[i] == entry && pageCount == TotalPages(es[..i])
    requires f1 == f0 + BatchLogs(outputBase, es[..i])
    requires c1 == c0 + Logs(|f0|, pageCount)
    requires f2 == f1 + LogPaths(outputBase, EntryPages(entry))
    requires c2 == c1 + Logs(|f1|, PageCount(entry))
    ensures pageCount + PageCount(entry) == TotalPages(es[..i + 1])
    ensures f2 == f0 + BatchLogs(outputBase, es[..i + 1])
    ensures c2 == c0 + Logs(|f0|, pageCount + PageCount(entry))
  {
    BatchLogsLength(outputBase, es[..i]);
    TotalPagesStep(es, i);
    BatchLogsStep(outputBase, es, i, f0, f1, f2);
    LogsJoin(|f0|, pageCount, PageCount(entry), |f1|);
  }

  /** The console of one more entry: from the trace before it and the events
      of its pages, the trace after it. */
  lemma EntryTraceStep(out: Sink, err: Sink, agg: WriterId, w: (nat, string) -> seq<ConsoleLine>,
                       es: seq<ImageEntry>, i: nat, entry: ImageEntry, pageCount: nat,
                       lss: seq<seq<seq<ConsoleLine>>>, ls: seq<seq<ConsoleLine>>, logBase: nat, logAt: nat,
                       t0: seq<Event>, t1: seq<Event>, t2: seq<Event>)
    requires i < |es| && es[i] == entry && pageCount == TotalPages(es[..i]) && logAt == logBase + pageCount
    requires BatchWrote(lss, w, es[..i])
    requires t1 == t0 + BatchEvents(out, err, agg, logBase, lss)
    requires PagesWrote(ls, w, pageCount, EntryPages(entry))
    requires t2 == t1 + PagesEvents(out, err, agg, logAt, ls)
    ensures BatchWrote(lss + [ls], w, es[..i + 1])
    ensures t2 == t0 + BatchEvents(out, err, agg, logBase, lss + [ls])
  {
    BatchWrotePages(lss, w, es[..i]);
    BatchTraceStep(out, err, agg, logBase, lss, ls, logAt, t0, t1, t2);
    TakeNext(es, i);
    BatchWroteSnoc(lss, ls, w, es[..i], entry);
  }

  // ---- one entry ----

  predicate WellFormed(d: Decoded)
  {
    IsGrid(d.pixels, d.width, d.height)
  }

  /** The names of `pages`: the base name with each page's suffix. */
  function NamesOf(baseName: string, pages: seq<Page>): seq<string>
  {
    seq(|pages|, i requires 0 <= i < |pages| => baseName + pages[i].suffix)
  }

  /** The files of one more page: page `i` of `names` opened and closed its log. */
  lemma PageFilesStep(outputBase: string, names: seq<string>, i: nat,
                      f0: seq<string>, f1: seq<string>, f2: seq<string>, c0: set<WriterId>, c1: set<WriterId>, c2: set<WriterId>)
    requires i < |names|
    requires f1 == f0 + LogPaths(outputBase, names[..i])
    requires c1 == c0 + Logs(|f0|, i)
    requires f2 == f1 + [Paths.Combine(outputBase, names[i] + ".out")]
    requires c2 == c1 + {FileWriter(|f1|)}
    ensures |f1| == |f0| + i
    ensures f2 == f0 + LogPaths(outputBase, names[..i + 1])
    ensures c2 == c0 + Logs(|f0|, i + 1)
  {
    LogPathsStep(outputBase, names, i, f0, f1, f2);
    LogsNext(|f0|, i, |f1|);
  }

  /** The console of one more page: page `i` of `names`, number `n`, wrote
      `lines` through its log `FileWriter(logAt)`. */
  lemma PageTraceStep(out: Sink, err: Sink, agg: WriterId, w: (nat, string) -> seq<ConsoleLine>,
                      names: seq<string>, i: nat, pageBase: nat, n: nat, ls: seq<seq<ConsoleLine>>, lines: seq<ConsoleLine>,
                      logBase: nat, logAt: nat, t0: seq<Event>, t1: seq<Event>, t2: seq<Event>)
    requires i < |names| && n == pageBase + i + 1 && logAt == logBase + i
    requires PagesWrote(ls, w, pageBase, names[..i]) && lines == w(n, names[i])
    requires t1 == t0 + PagesEvents(out, err, agg, logBase, ls)
    requires t2 == t1 + Emit(Redirected(out, agg, FileWriter(logAt)), Redirected(err, agg, FileWriter(logAt)), lines)
    ensures PagesWrote(ls + [lines], w, pageBase, names[..i + 1])
    ensures t2 == t0 + PagesEvents(out, err, agg, logBase, ls + [lines])
  {
    PagesTraceStep(out, err, agg, logBase, ls, lines, t0, t1, t2);
    PagesWroteSnoc(ls, lines, w, pageBase, names, i, n);
  }

  /** One turn of `ProcessImageFile`'s page loop: page `i` of `names`, number
      `pageBase + i + 1` of the batch, goes through `ProcessPage`, whose log is
      the next file opened; `lines` is what the page writes. */
  method ProcessNthPage(con: Console, io: Writers, opts: Options, svc: Services, agg: WriterId,
                        count: nat, pageName: string, ghost names: seq<string>, ghost i: nat, ghost pageBase: nat,
                        ghost ls: seq<seq<ConsoleLine>>, ghost f0: seq<string>, ghost c0: set<WriterId>, ghost t0: seq<Event>)
    returns (ghost lines: seq<ConsoleLine>)
    requires i < |names| && names[i] == pageName && count == pageBase + i + 1
    requires io.Valid() && io.Usable(con.out) && io.Usable(con.err) && io.Usable(Leaf(agg))
    requires PagesWrote(ls, PageLines(opts, svc), pageBase, names[..i])
    requires io.files == f0 + LogPaths(opts.outputBase, names[..i])
    requires io.closed == c0 + Logs(|f0|, i)
    requires io.trace == t0 + PagesEvents(con.out, con.err, agg, |f0|, ls)
    modifies con, io
    ensures io.Valid()
    ensures con.out == old(con.out) && con.err == old(con.err)
    ensures io.Usable(con.out) && io.Usable(con.err) && io.Usable(Leaf(agg))
    ensures PagesWrote(ls + [lines], PageLines(opts, svc), pageBase, names[..i + 1])
    ensures io.files == f0 + LogPaths(opts.outputBase, names[..i + 1])
    ensures io.closed == c0 + Logs(|f0|, i + 1)
    ensures io.trace == t0 + PagesEvents(con.out, con.err, agg, |f0|, ls + [lines])
  {
    ghost var t1, f1, c1 := io.trace, io.files, io.closed;
    var log := ProcessPage(con, io, svc.recognize(count), opts.saveImages, opts.verbose, opts.outputBase,
                           pageName, agg, svc.pageTime(count));
    lines := PageLines(opts, svc)(count, pageName);
    PageFilesStep(opts.outputBase, names, i, f0, f1, io.files, c0, c1, io.closed);
    PageTraceStep(con.out, con.err, agg, PageLines(opts, svc), names, i, pageBase, count, ls, lines, |f0|, |f1|,
                  t0, t1, io.trace);
  }

  /** The `foreach` of `ProcessImageFile`: for each page in turn, raises the
      counter and runs `ProcessPage` under that number; `ls` is what the pages
      write. */
  method ProcessPages(con: Console, io: Writers, pages: seq<Page>, baseName: string,
                      opts: Options, svc: Services, agg: WriterId, pageCount: nat)
    returns (count: nat, ghost ls: seq<seq<ConsoleLine>>)
    requires io.Valid() && io.Usable(con.out) && io.Usable(con.err) && io.Usable(Leaf(agg))
    modifies con, io
    ensures count == pageCount + |pages|
    ensures io.Valid()
    ensures con.out == old(con.out) && con.err == old(con.err)
    ensures io.Usable(con.out) && io.Usable(con.err) && io.Usable(Leaf(agg))
    ensures PagesWrote(ls, PageLines(opts, svc), pageCount, NamesOf(baseName, pages))
    ensures io.files == old(io.files) + LogPaths(opts.outputBase, NamesOf(baseName, pages))
    ensures io.closed == old(io.closed) + Logs(|old(io.files)|, |pages|)
    ensures io.trace == old(io.trace) + PagesEvents(con.out, con.err, agg, |old(io.files)|, ls)
  {
    ghost var names := NamesOf(baseName, pages);
    ghost var logBase := |io.files|;
    count := pageCount;
    ls := [];
    for i := 0 to |pages|
      invariant count == pageCount + i
      invariant io.Valid()
      invariant con.out == old(con.out) && con.err == old(con.err)
      invariant io.Usable(con.out) && io.Usable(con.err) && io.Usable(Leaf(agg))
      invariant PagesWrote(ls, PageLines(opts, svc), pageCount, names[..i])
      invariant io.files == old(io.files) + LogPaths(opts.outputBase, names[..i])
      invariant io.closed == old(io.closed) + Logs(logBase, i)
      invariant io.trace == old(io.trace) + PagesEvents(con.out, con.err, agg, logBase, ls)
    {
      count := count + 1;
      var pageName := baseName + pages[i].suffix;
      ghost var lines := ProcessNthPage(con, io, opts, svc, agg, count, pageName, names, i, pageCount, ls,
                                        old(io.files), old(io.closed), old(io.trace));
      ls := ls + [lines];
    }
    assert names[..|pages|] == names;
  }

  /** The loaded bitmap's `using` scope in `ProcessImageFile`: cuts `full`
      into the entry's pages, processes them in turn and disposes `full`. */
  method ProcessSpread(con: Console, io: Writers, full: Bitmap, entry: ImageEntry,
                       opts: Options, svc: Services, agg: WriterId, pageCount: nat)
    returns (count: nat, ghost ls: seq<seq<ConsoleLine>>)
    requires full.Valid() && !full.disposed
    requires io.Valid() && io.Usable(con.out) && io.Usable(con.err) && io.Usable(Leaf(agg))
    modifies con, io, full
    ensures full.disposed
    ensures full.width == old(full.width) && full.height == old(full.height) && full.pixels == old(full.pixels)
    ensures io.Valid()
    ensures con.out == old(con.out) && con.err == old(con.err)
    ensures io.Usable(con.out) && io.Usable(con.err) && io.Usable(Leaf(agg))
    ensures count == pageCount + PageCount(entry)
    ensures PagesWrote(ls, PageLines(opts, svc), pageCount, EntryPages(entry))
    ensures io.files == old(io.files) + LogPaths(opts.outputBase, EntryPages(entry))
    ensures io.closed == old(io.closed) + Logs(|old(io.files)|, PageCount(entry))
    ensures io.trace == old(io.trace) + PagesEvents(con.out, con.err, agg, |old(io.files)|, ls)
  {
    var baseName := Paths.GetFileNameWithoutExtension(entry.path);
    var pages := SplitPages(full, entry.split);
    assert NamesOf(baseName, pages) == EntryPages(entry);
    count, ls := ProcessPages(con, io, pages, baseName, opts, svc, agg, pageCount);
    full.Dispose();
  }

  /** `ProcessImageFile`: loads and orients the image (what the decoder makes
      of the file is `codec`), cuts it into its pages, and for each page in
      turn raises the page counter and runs `ProcessPage`; finally disposes the
      loaded bitmap. An undecodable image throws before anything is written;
      otherwise the result is the raised counter, and `ls` is what the pages
      write. */
  method ProcessImageFile(con: Console, io: Writers, entry: ImageEntry, codec: Option<Decoded>,
                          opts: Options, svc: Services, agg: WriterId, pageCount: nat)
    returns (r: Try<nat>, ghost ls: seq<seq<ConsoleLine>>)
    requires codec.Some? ==> WellFormed(codec.value)
    requires io.Valid() && io.Usable(con.out) && io.Usable(con.err) && io.Usable(Leaf(agg))
    modifies con, io
    ensures io.Valid()
    ensures con.out == old(con.out) && con.err == old(con.err)
    ensures io.Usable(con.out) && io.Usable(con.err) && io.Usable(Leaf(agg))
    ensures codec.None? ==>
      && r == Throws(CannotOpen(entry.path))
      && io.files == old(io.files) && io.closed == old(io.closed) && io.trace == old(io.trace)
    ensures codec.Some? ==>
      && r == Ok(pageCount + PageCount(entry))
      && PagesWrote(ls, PageLines(opts, svc), pageCount, EntryPages(entry))
      && io.files == old(io.files) + LogPaths(opts.outputBase, EntryPages(entry))
      && io.closed == old(io.closed) + Logs(|old(io.files)|, PageCount(entry))
      && io.trace == old(io.trace) + PagesEvents(old(con.out), old(con.err), agg, |old(io.files)|, ls)
  {
    var loaded, _ := LoadAndOrientImage(entry.path, codec);
    if loaded.Throws? {
      return Throws(loaded.ex), [];
    }
    var full := loaded.value;
    var count;
    count, ls := ProcessSpread(con, io, full, entry, opts, svc, agg, pageCount);
    return Ok(count), ls;
  }

  // ---- the batch ----

  /** What `Main` finds outside itself: the arguments, the files and
      directories (each directory with the paths its enumeration yields), the
      deserialised manifest and its folder, whether `appsettings.json` holds
      every Custom Vision setting, what the decoder makes of each image path,
      the outside calls of each page, and the batch's elapsed time. */
  datatype FileSystem = FileSystem(files: set<string>, directories: map<string, seq<string>>)

  datatype Environment = Environment(
    args: seq<string>,
    fs: FileSystem,
    manifest: seq<ImageEntry>,
    manifestFolder: string,
    settingsComplete: bool,
    images: string -> Option<Decoded>,
    svc: Services,
    totalTime: string)

  /** How `Main` ends. */
  datatype Outcome =
    | InputNotFound
    | NothingToProcess
    | MissingSettings
    | Completed(pageCount: nat)
    | Crashed(ex: Exception)

  /** The input is a manifest when it names an existing `.json` file. */
  predicate IsManifest(env: Environment)
  {
    var arg := InputArgument(env.args);
    EndsWithIgnoreCase(arg, ".json") && arg in env.fs.files
  }

  /** The entries to process and the folder the output goes under, or `None`
      when the input is neither a manifest nor a directory. */
  datatype Input = Input(entries: seq<ImageEntry>, baseFolder: string)

  /** The flags `Main` reads from the command line, and its output folder
      `image_out` under the input's base folder. */
  function BatchOptions(env: Environment, baseFolder: string): Options
  {
    Options(HasFlag(env.args, "--save-images"), HasFlag(env.args, "--verbose"),
            Paths.Combine(baseFolder, OutputFolder))
  }

  function SelectInput(env: Environment): Option<Input>
  {
    var arg := InputArgument(env.args);
    if IsManifest(env) then Some(Input(Normalized(env.manifest, env.manifestFolder), env.manifestFolder))
    else if arg in env.fs.directories then Some(Input(DirectoryEntries(env.fs.directories[arg]), arg))
    else None
  }

  /** The line an early exit writes. */
  function ExitLine(o: Outcome, inputArg: string): ConsoleLine
  {
    match o
    case InputNotFound => ConsoleLine(Err, "Input not found: " + inputArg)
    case NothingToProcess => ConsoleLine(Out, "No images to process; exiting.")
    case _ => ConsoleLine(Err, "Missing one of the Custom Vision settings in appsettings.json")
  }

  function SummaryLine(pageCount: nat, elapsed: string): string
  {
    "\nProcessed " + NatToString(pageCount) + " page(s) in " + elapsed + "."
  }

  function AggregatorPath(baseFolder: string): string
  {
    Paths.Combine(Paths.Combine(baseFolder, OutputFolder), "aggregator.txt")
  }

  /** Whether the decoder reads every entry's image. */
  predicate AllDecode(images: string -> Option<Decoded>, es: seq<ImageEntry>)
  {
    forall i :: 0 <= i < |es| ==> images(es[i].path).Some?
  }

  /** The first entry whose image the decoder cannot read. */
  function FirstUndecodable(images: string -> Option<Decoded>, es: seq<ImageEntry>): (k: nat)
    requires !AllDecode(images, es)
    ensures k < |es| && images(es[k].path).None?
    ensures forall i :: 0 <= i < k ==> images(es[i].path).Some?
  {
    if images(es[0].path).None? then 0
    else
      assert !AllDecode(images, es[1..]) by {
        var j :| 0 <= j < |es| && images(es[j].path).None?;
        assert es[1..][j - 1] == es[j];
      }
      var k := FirstUndecodable(images, es[1..]);
      assert forall i :: 1 <= i <= k ==> es[i] == es[1..][i - 1];
      k + 1
  }

  /** The entry loop, having decoded every entry before `i`, goes on past a
      decodable entry `i`. */
  lemma AllDecodeSnoc(images: string -> Option<Decoded>, es: seq<ImageEntry>, i: nat)
    requires i < |es| && AllDecode(images, es[..i]) && images(es[i].path).Some?
    ensures AllDecode(images, es[..i + 1])
  {
    assert forall k :: 0 <= k < i ==> es[..i + 1][k] == es[..i][k];
  }

  /** The entry loop, having decoded every entry before `i`, stops at the first
      undecodable entry. */
  lemma FirstUndecodableAt(images: string -> Option<Decoded>, es: seq<ImageEntry>, i: nat)
    requires i < |es| && AllDecode(images, es[..i]) && images(es[i].path).None?
    ensures !AllDecode(images, es) && FirstUndecodable(images, es) == i
  {
    assert forall k :: 0 <= k < i ==> es[k] == es[..i][k];
  }

  /** The entries the entry loop gets through: all of them when every image
      decodes, otherwise those before the first that does not. */
  function Decodable(images: string -> Option<Decoded>, es: seq<ImageEntry>): seq<ImageEntry>
  {
    if AllDecode(images, es) then es else es[..FirstUndecodable(images, es)]
  }

  /** The entries gone through are the longest prefix whose images all decode:
      the whole list exactly when every image decodes, and otherwise followed
      by an entry whose image does not. */
  lemma DecodablePrefix(images: string -> Option<Decoded>, es: seq<ImageEntry>)
    ensures var d := Decodable(images, es);
      && |d| <= |es| && d == es[..|d|]
      && AllDecode(images, d)
      && (d == es <==> AllDecode(images, es))
      && (|d| < |es| ==> images(es[|d|].path).None?)
  {
    if !AllDecode(images, es) {
      var k := FirstUndecodable(images, es);
      assert forall i :: 0 <= i < k ==> es[..k][i] == es[i];
      assert |es[..k]| < |es|;
    }
  }

  /** `Main`'s reading of its input: a manifest's entries are copied into an
      array whose paths are then normalised against the manifest's folder; a
      directory's `.jpg` and `.jpeg` files become spreads to split. */
  method SelectEntries(env: Environment) returns (input: Option<Input>)
    ensures input == SelectInput(env)
  {
    var inputArg := InputArgument(env.args);
    if EndsWithIgnoreCase(inputArg, ".json") && inputArg in env.fs.files {
      var list := new ImageEntry[|env.manifest|](i requires 0 <= i < |env.manifest| => env.manifest[i]);
      assert list[..] == env.manifest;
      NormalizeManifestPaths(list, env.manifestFolder);
      return Some(Input(list[..], env.manifestFolder));
    } else if inputArg in env.fs.directories {
      return Some(Input(DirectoryEntries(env.fs.directories[inputArg]), inputArg));
    }
    return None;
  }

  /** One turn of `Main`'s entry loop: entry `i` of `es`, whose pages follow
      the `pageCount` pages already processed; `ls` is what its pages write. */
  method ProcessNthEntry(con: Console, io: Writers, images: string -> Option<Decoded>, opts: Options,
                         svc: Services, agg: WriterId, pageCount: nat, entry: ImageEntry, ghost es: seq<ImageEntry>,
                         ghost i: nat, ghost lss: seq<seq<seq<ConsoleLine>>>,
                         ghost f0: seq<string>, ghost c0: set<WriterId>, ghost t0: seq<Event>)
    returns (r: Try<nat>, ghost ls: seq<seq<ConsoleLine>>)
    requires i < |es| && es[i] == entry && pageCount == TotalPages(es[..i])
    requires forall p :: images(p).Some? ==> WellFormed(images(p).value)
    requires io.Valid() && io.Usable(con.out) && io.Usable(con.err) && io.Usable(Leaf(agg))
    requires BatchWrote(lss, PageLines(opts, svc), es[..i])
    requires io.files == f0 + BatchLogs(opts.outputBase, es[..i])
    requires io.closed == c0 + Logs(|f0|, pageCount)
    requires io.trace == t0 + BatchEvents(con.out, con.err, agg, |f0|, lss)
    modifies con, io
    ensures io.Valid()
    ensures con.out == old(con.out) && con.err == old(con.err)
    ensures io.Usable(con.out) && io.Usable(con.err) && io.Usable(Leaf(agg))
    ensures r.Ok? <==> images(entry.path).Some?
    ensures r.Throws? ==>
      && r.ex == CannotOpen(entry.path)
      && io.files == old(io.files) && io.closed == old(io.closed) && io.trace == old(io.trace)
    ensures r.Ok? ==>
      && r.value == TotalPages(es[..i + 1])
      && BatchWrote(lss + [ls], PageLines(opts, svc), es[..i + 1])
      && io.files == f0 + BatchLogs(opts.outputBase, es[..i + 1])
      && io.closed == c0 + Logs(|f0|, r.value)
      && io.trace == t0 + BatchEvents(con.out, con.err, agg, |f0|, lss + [ls])
  {
    ghost var t1, f1, c1 := io.trace, io.files, io.closed;
    r, ls := ProcessImageFile(con, io, entry, images(entry.path), opts, svc, agg, pageCount);
    if r.Ok? {
      BatchLogsLength(opts.outputBase, es[..i]);
      EntryFilesStep(opts.outputBase, es, i, entry, pageCount, f0, f1, io.files, c0, c1, io.closed);
      EntryTraceStep(con.out, con.err, agg, PageLines(opts, svc), es, i, entry, pageCount, lss, ls, |f0|, |f1|,
                     t0, t1, io.trace);
    }
  }

  /** `Main`'s loop over the entries, in order; the first image that cannot be
      decoded ends it with that image's exception. Either way the entries
      before that point have been processed as if they were the whole list:
      `lss` is what their pages write, and their logs were opened, written and
      closed in order. */
  method ProcessEntries(con: Console, io: Writers, entries: seq<ImageEntry>, images: string -> Option<Decoded>,
                        opts: Options, svc: Services, agg: WriterId)
    returns (r: Try<nat>, ghost lss: seq<seq<seq<ConsoleLine>>>)
    requires forall p :: images(p).Some? ==> WellFormed(images(p).value)
    requires io.Valid() && io.Usable(con.out) && io.Usable(con.err) && io.Usable(Leaf(agg))
    modifies con, io
    ensures io.Valid()
    ensures con.out == old(con.out) && con.err == old(con.err)
    ensures io.Usable(con.out) && io.Usable(con.err) && io.Usable(Leaf(agg))
    ensures |old(io.files)| <= |io.files| && io.files[..|old(io.files)|] == old(io.files)
    ensures old(io.closed) <= io.closed
    ensures r.Ok? <==> AllDecode(images, entries)
    ensures r.Throws? ==>
      && !AllDecode(images, entries)
      && r.ex == CannotOpen(entries[FirstUndecodable(images, entries)].path)
    ensures r.Ok? ==> r.value == TotalPages(entries)
    ensures var done := Decodable(images, entries);
      && BatchWrote(lss, PageLines(opts, svc), done)
      && io.files == old(io.files) + BatchLogs(opts.outputBase, done)
      && io.closed == old(io.closed) + Logs(|old(io.files)|, TotalPages(done))
      && io.trace == old(io.trace) + BatchEvents(con.out, con.err, agg, |old(io.files)|, lss)
  {
    var pageCount := 0;
    lss := [];
    for i := 0 to |entries|
      invariant io.Valid()
      invariant con.out == old(con.out) && con.err == old(con.err)
      invariant io.Usable(con.out) && io.Usable(con.err) && io.Usable(Leaf(agg))
      invariant AllDecode(images, entries[..i])
      invariant pageCount == TotalPages(entries[..i])
      invariant BatchWrote(lss, PageLines(opts, svc), entries[..i])
      invariant io.files == old(io.files) + BatchLogs(opts.outputBase, entries[..i])
      invariant io.closed == old(io.closed) + Logs(|old(io.files)|, pageCount)
      invariant io.trace == old(io.trace) + BatchEvents(con.out, con.err, agg, |old(io.files)|, lss)
    {
      var step;
      ghost var ls;
      step, ls := ProcessNthEntry(con, io, images, opts, svc, agg, pageCount, entries[i], entries, i, lss,
                                  old(io.files), old(io.closed), old(io.trace));
      if step.Throws? {
        FirstUndecodableAt(images, entries, i);
        PrefixOfAppend(old(io.files), BatchLogs(opts.outputBase, entries[..i]));
        return step, lss;
      }
      pageCount := step.value;
      lss := lss + [ls];
      AllDecodeSnoc(images, entries, i);
    }
    assert entries[..|entries|] == entries;
    PrefixOfAppend(old(io.files), BatchLogs(opts.outputBase, entries));
    return Ok(pageCount), lss;
  }

  lemma PrefixOfAppend<T>(a: seq<T>, b: seq<T>)
    ensures |a| <= |a + b| && (a + b)[..|a|] == a
  {
  }

  /** The batch part of `Main`: opens the aggregator under `image_out`,
      processes the entries in order and writes the summary line. An image that
      cannot be decoded ends the batch with its exception: the entries before
      it have been processed, and the aggregator is left as the exception
      finds it, still open. */
  method RunBatch(con: Console, io: Writers, opts: Options, entries: seq<ImageEntry>, baseFolder: string,
                  images: string -> Option<Decoded>, svc: Services, totalTime: string)
    returns (outcome: Outcome, ghost lss: seq<seq<seq<ConsoleLine>>>)
    requires opts.outputBase == Paths.Combine(baseFolder, OutputFolder)
    requires io.Valid() && io.Usable(con.out) && io.Usable(con.err)
    requires forall p :: images(p).Some? ==> WellFormed(images(p).value)
    modifies con, io
    ensures io.Valid()
    ensures con.out == old(con.out) && con.err == old(con.err)
    ensures outcome.Completed? <==> AllDecode(images, entries)
    ensures outcome.Completed? || outcome.Crashed?
    ensures var done := Decodable(images, entries);
      && io.files == old(io.files) + [AggregatorPath(baseFolder)] + BatchLogs(opts.outputBase, done)
      && BatchWrote(lss, PageLines(opts, svc), done)
    ensures outcome.Completed? ==>
      var agg := FileWriter(|old(io.files)|);
      && outcome.pageCount == TotalPages(entries)
      && io.closed == old(io.closed) + Logs(|old(io.files)| + 1, outcome.pageCount) + {agg}
      && io.trace == old(io.trace)
                     + BatchEvents(con.out, con.err, agg, |old(io.files)| + 1, lss)
                     + Emit(con.out, con.err, [ConsoleLine(Out, SummaryLine(outcome.pageCount, totalTime))])
    ensures outcome.Crashed? ==>
      var agg, done := FileWriter(|old(io.files)|), Decodable(images, entries);
      && !AllDecode(images, entries)
      && outcome.ex == CannotOpen(entries[FirstUndecodable(images, entries)].path)
      && io.closed == old(io.closed) + Logs(|old(io.files)| + 1, TotalPages(done))
      && io.trace == old(io.trace) + BatchEvents(con.out, con.err, agg, |old(io.files)| + 1, lss)
  {
    var agg := OpenAggregator(con, io, opts, baseFolder);
    ghost var n := |io.files|;
    assert n == |old(io.files)| + 1;
    outcome, lss := RunEntries(con, io, entries, images, opts, svc, agg, totalTime);
  }

  /** `RunBatch` once the aggregator `agg` is open. */
  method RunEntries(con: Console, io: Writers, entries: seq<ImageEntry>, images: string -> Option<Decoded>,
                    opts: Options, svc: Services, agg: WriterId, totalTime: string)
    returns (outcome: Outcome, ghost lss: seq<seq<seq<ConsoleLine>>>)
    requires forall p :: images(p).Some? ==> WellFormed(images(p).value)
    requires io.Valid() && io.Usable(con.out) && io.Usable(con.err) && io.Usable(Leaf(agg))
    modifies con, io
    ensures io.Valid()
    ensures con.out == old(con.out) && con.err == old(con.err)
    ensures outcome.Completed? <==> AllDecode(images, entries)
    ensures outcome.Completed? || outcome.Crashed?
    ensures var done := Decodable(images, entries);
      && io.files == old(io.files) + BatchLogs(opts.outputBase, done)
      && BatchWrote(lss, PageLines(opts, svc), done)
    ensures outcome.Completed? ==>
      && outcome.pageCount == TotalPages(entries)
      && io.closed == old(io.closed) + Logs(|old(io.files)|, outcome.pageCount) + {agg}
      && io.trace == old(io.trace)
                     + BatchEvents(con.out, con.err, agg, |old(io.files)|, lss)
                     + Emit(con.out, con.err, [ConsoleLine(Out, SummaryLine(outcome.pageCount, totalTime))])
    ensures outcome.Crashed? ==>
      && !AllDecode(images, entries)
      && outcome.ex == CannotOpen(entries[FirstUndecodable(images, entries)].path)
      && io.closed == old(io.closed) + Logs(|old(io.files)|, TotalPages(Decodable(images, entries)))
      && io.trace == old(io.trace) + BatchEvents(con.out, con.err, agg, |old(io.files)|, lss)
  {
    var r;
    r, lss := ProcessEntries(con, io, entries, images, opts, svc, agg);
    if r.Throws? {
      // the exception leaves `Main` uncaught: nothing more is written
      return Crashed(r.ex), lss;
    }
    FinishBatch(con, io, agg, r.value, totalTime);
    return Completed(r.value), lss;
  }

  /** The aggregator's `StreamWriter`, opened on `image_out/aggregator.txt`. */
  method OpenAggregator(con: Console, io: Writers, opts: Options, baseFolder: string) returns (agg: WriterId)
    requires opts.outputBase == Paths.Combine(baseFolder, OutputFolder)
    requires io.Valid() && io.Usable(con.out) && io.Usable(con.err)
    modifies io
    ensures io.Valid()
    ensures agg == FileWriter(|old(io.files)|)
    ensures io.Usable(con.out) && io.Usable(con.err) && io.Usable(Leaf(agg))
    ensures io.files == old(io.files) + [AggregatorPath(baseFolder)]
    ensures io.closed == old(io.closed) && io.trace == old(io.trace)
  {
    io.NextNotInUsable(con.out);
    io.NextNotInUsable(con.err);
    agg := io.Open(Paths.Combine(opts.outputBase, "aggregator.txt"));
    assert io.Usable(Leaf(agg));
  }

  /** The end of a completed batch: the summary line, then the end of the
      aggregator's `using` scope. */
  method FinishBatch(con: Console, io: Writers, agg: WriterId, pageCount: nat, totalTime: string)
    requires io.Valid() && io.Usable(con.out) && io.Known(agg)
    modifies io
    ensures io.Valid()
    ensures io.files == old(io.files)
    ensures io.closed == old(io.closed) + {agg}
    ensures io.trace == old(io.trace) + Emit(con.out, con.err, [ConsoleLine(Out, SummaryLine(pageCount, totalTime))])
  {
    con.Write(io, ConsoleLine(Out, SummaryLine(pageCount, totalTime)), [], io.trace);
    io.Close(agg);
  }

  /** An early exit of `Main`: its one line, and nothing else. */
  method Exit(con: Console, io: Writers, outcome: Outcome, inputArg: string)
    requires outcome.InputNotFound? || outcome.NothingToProcess? || outcome.MissingSettings?
    requires io.Valid() && io.Usable(con.out) && io.Usable(con.err)
    modifies io
    ensures io.Valid()
    ensures io.files == old(io.files) && io.closed == old(io.closed)
    ensures io.trace == old(io.trace) + Emit(con.out, con.err, [ExitLine(outcome, inputArg)])
  {
    con.Write(io, ExitLine(outcome, inputArg), [], io.trace);
  }

  /** The early exits of `Main`, in their order: no input, then no entries
      (before any setting is read), then missing settings. */
  method ExitEarly(con: Console, io: Writers, env: Environment, input: Option<Input>) returns (outcome: Outcome)
    requires input.None? || input.value.entries == [] || !env.settingsComplete
    requires io.Valid() && io.Usable(con.out) && io.Usable(con.err)
    modifies io
    ensures io.Valid()
    ensures && (outcome == InputNotFound <==> input.None?)
            && (outcome == NothingToProcess <==> input.Some? && input.value.entries == [])
            && (outcome == MissingSettings <==> input.Some? && input.value.entries != [] && !env.settingsComplete)
    ensures io.files == old(io.files) && io.closed == old(io.closed)
    ensures io.trace == old(io.trace) + Emit(con.out, con.err, [ExitLine(outcome, InputArgument(env.args))])
  {
    if input.None? {
      outcome := InputNotFound;
    } else if input.value.entries == [] {
      outcome := NothingToProcess;
    } else {
      outcome := MissingSettings;
    }
    Exit(con, io, outcome, InputArgument(env.args));
  }

  /** `Main` once its input is read: exits early on a missing input, on no
      entries (before any setting is read) or on missing settings, and
      otherwise runs the batch. */
  method Dispatch(con: Console, io: Writers, env: Environment, input: Option<Input>)
    returns (outcome: Outcome, ghost lss: seq<seq<seq<ConsoleLine>>>)
    requires io.Valid() && io.Usable(con.out) && io.Usable(con.err)
    requires forall p :: env.images(p).Some? ==> WellFormed(env.images(p).value)
    modifies con, io
    ensures io.Valid()
    ensures con.out == old(con.out) && con.err == old(con.err)
    ensures && (outcome == InputNotFound <==> input.None?)
            && (outcome == NothingToProcess <==> input.Some? && input.value.entries == [])
            && (outcome == MissingSettings <==> input.Some? && input.value.entries != [] && !env.settingsComplete)
            && (outcome.Completed? <==>
                  input.Some? && input.value.entries != [] && env.settingsComplete
                  && AllDecode(env.images, input.value.entries))
    ensures outcome.InputNotFound? || outcome.NothingToProcess? || outcome.MissingSettings? ==>
      && io.files == old(io.files) && io.closed == old(io.closed)
      && io.trace == old(io.trace) + Emit(con.out, con.err, [ExitLine(outcome, InputArgument(env.args))])
    ensures outcome.Completed? || outcome.Crashed? ==>
      && input.Some?
      && var opts, done := BatchOptions(env, input.value.baseFolder), Decodable(env.images, input.value.entries);
         && io.files == old(io.files) + [AggregatorPath(input.value.baseFolder)] + BatchLogs(opts.outputBase, done)
         && BatchWrote(lss, PageLines(opts, env.svc), done)
    ensures outcome.Completed? ==>
      var es, agg := input.value.entries, FileWriter(|old(io.files)|);
      && outcome.pageCount == TotalPages(es)
      && io.closed == old(io.closed) + Logs(|old(io.files)| + 1, outcome.pageCount) + {agg}
      && io.trace == old(io.trace)
                     + BatchEvents(con.out, con.err, agg, |old(io.files)| + 1, lss)
                     + Emit(con.out, con.err, [ConsoleLine(Out, SummaryLine(outcome.pageCount, env.totalTime))])
    ensures outcome.Crashed? ==>
      var es, agg := input.value.entries, FileWriter(|old(io.files)|);
      && !AllDecode(env.images, es)
      && outcome.ex == CannotOpen(es[FirstUndecodable(env.images, es)].path)
      && io.closed == old(io.closed) + Logs(|old(io.files)| + 1, TotalPages(Decodable(env.images, es)))
      && io.trace == old(io.trace) + BatchEvents(con.out, con.err, agg, |old(io.files)| + 1, lss)
  {
    if input.None? || input.value.entries == [] || !env.settingsComplete {
      outcome := ExitEarly(con, io, env, input);
      lss := [];
    } else {
      var opts := BatchOptions(env, input.value.baseFolder);
      outcome, lss := RunBatch(con, io, opts, input.value.entries, input.value.baseFolder,
                               env.images, env.svc, env.totalTime);
    }
  }

  /** `Main`: reads the flags and the input argument, builds the entries
      from the manifest or the directory, exits early on a missing input, on
      no entries (before any setting is read) or on missing settings, and
      otherwise opens the aggregator under `image_out` and processes the
      entries in order, ending with the summary line. An image that cannot be
      decoded ends the batch with its exception; the aggregator is not
      disposed. */
  method Execute(con: Console, io: Writers, env: Environment) returns (outcome: Outcome, ghost lss: seq<seq<seq<ConsoleLine>>>)
    requires io.Valid() && io.Usable(con.out) && io.Usable(con.err)
    requires forall p :: env.images(p).Some? ==> WellFormed(env.images(p).value)
    modifies con, io
    ensures io.Valid()
    ensures con.out == old(con.out) && con.err == old(con.err)
    ensures var sel := SelectInput(env);
      && (outcome == InputNotFound <==> sel.None?)
      && (outcome == NothingToProcess <==> sel.Some? && sel.value.entries == [])
      && (outcome == MissingSettings <==> sel.Some? && sel.value.entries != [] && !env.settingsComplete)
      && (outcome.Completed? <==>
            sel.Some? && sel.value.entries != [] && env.settingsComplete && AllDecode(env.images, sel.value.entries))
    ensures outcome.InputNotFound? || outcome.NothingToProcess? || outcome.MissingSettings? ==>
      && io.files == old(io.files) && io.closed == old(io.closed)
      && io.trace == old(io.trace) + Emit(con.out, con.err, [ExitLine(outcome, InputArgument(env.args))])
    ensures outcome.Completed? || outcome.Crashed? ==>
      && SelectInput(env).Some?
      && var input := SelectInput(env).value;
         var opts, done := BatchOptions(env, input.baseFolder), Decodable(env.images, input.entries);
         && io.files == old(io.files) + [AggregatorPath(input.baseFolder)] + BatchLogs(opts.outputBase, done)
         && BatchWrote(lss, PageLines(opts, env.svc), done)
    ensures outcome.Completed? ==>
      var es, agg := SelectInput(env).value.entries, FileWriter(|old(io.files)|);
      && outcome.pageCount == TotalPages(es)
      && io.closed == old(io.closed) + Logs(|old(io.files)| + 1, outcome.pageCount) + {agg}
      && io.trace == old(io.trace)
                     + BatchEvents(con.out, con.err, agg, |old(io.files)| + 1, lss)
                     + Emit(con.out, con.err, [ConsoleLine(Out, SummaryLine(outcome.pageCount, env.totalTime))])
    ensures outcome.Crashed? ==>
      var es, agg := SelectInput(env).value.entries, FileWriter(|old(io.files)|);
      && !AllDecode(env.images, es)
      && outcome.ex == CannotOpen(es[FirstUndecodable(env.images, es)].path)
      && io.closed == old(io.closed) + Logs(|old(io.files)| + 1, TotalPages(Decodable(env.images, es)))
      && io.trace == old(io.trace) + BatchEvents(con.out, con.err, agg, |old(io.files)| + 1, lss)
  {
    var input := SelectEntries(env);
    outcome, lss := Dispatch(con, io, env, input);
  }
}
