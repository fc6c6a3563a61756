# read_journal_customvision, modelled in Dafny

`read_journal_customvision` batch-processes scanned journal pages. It reads a
folder of `.jpg`/`.jpeg` images, or a JSON manifest of image entries. It
loads each image and corrects its orientation from the EXIF origin. It cuts a
two-page spread into a left and a right page, at a binder gap of
`BinderWidth` columns. It sends each page to the Custom Vision prediction
service and prints the returned tags, by descending probability. Every line
a page prints goes to three places: the console, a per-page `<page>.out`
log, and a batch-wide `image_out/aggregator.txt`. These copies are made by
`TeeTextWriter`s that are installed on `Console.Out` and `Console.Error`
for the page and removed afterwards.

The project models that bookkeeping around the imaging and service calls:

- `wrappers.dfy`: `Option`, `Exception` and `Try`.
- `text.dfy`: ordinal ignore-case comparison on ASCII letters, the `--`
  prefix test, and decimal rendering of counts, proved faithful by reading
  it back.
- `paths.dfy`: `Path.IsPathRooted`, `Combine`, `GetExtension`,
  `GetFileName` and `GetFileNameWithoutExtension` as .NET behaves on Unix.
  `/` is the only separator and a rooted path starts with it. These are
  assumptions of the model.
- `sinks.dfy`: writers. A `TeeTextWriter` is a `Sink` tree whose leaves are
  underlying writers. The `Writers` class holds every opened file writer,
  the set of disposed writers, and the ordered trace of every call any
  underlying writer received. The `Console` class holds the two redirectable
  streams.
- `raster.dfy`: bitmaps as a class with size, pixel grid and a disposed
  flag. Also the EXIF origin datatype, `Subset`, `ApplyExifOrientation`
  (identity and size) and `LoadAndOrientImage` (its dispose decision).
- `splitter.dfy`: spread geometry (C#'s truncating `/ 2`), page suffixes
  and `ProcessImageFile`'s page list.
- `page.dfy`: `ProcessPage`. It redirects both streams to
  `Tee(Tee(orig, agg), log)` and writes the transcript: header, try block,
  catch block, `Done` line. It then restores both streams and disposes the
  log. The outcome of each outside call (JPEG encoding, prediction,
  annotated-image write) is an input, a `PageRun`. The module also holds
  the tag sort and `AnnotateTags`' label layout.
- `program.dfy`: `Main`, as `Execute`. It covers:
  - the flags and the input argument;
  - manifest path normalisation as an in-place array loop;
  - the directory filter and the early exits;
  - the aggregator;
  - the entry loop, and per entry `ProcessImageFile` with the shared page
    counter;
  - the summary line.

  What `Main` finds outside itself is an `Environment` value:
  - the arguments;
  - the existing files and directories (each directory with its
    enumeration order);
  - the deserialised manifest and its folder;
  - whether every setting is present;
  - what the decoder makes of each path;
  - each page's service outcomes and timings.

The main theorems are these:
- `Execute` states the whole run as one function of the environment:
  - which of the five outcomes happens;
  - the files opened, in order;
  - the writers disposed;
  - the exact event trace.

  These hold on the crashing path too, for the entries before the one that
  throws.
- `ProcessPage` restores both console streams on every path.
- The per-page log receives exactly the page's transcript.
- The aggregator receives it after what it already had.
- Every other writer receives what the unredirected console would have
  passed it.

Read together with `Sinks.RedirectedRun` and
`PageProcessor.TranscriptShape`, this says: each line reaches console,
aggregator and log once each, in order.

Behaviours of the program worth noting, all modelled as the code has them:
- An image the decoder cannot read throws out of `ProcessImageFile`, and
  nothing in `Main` catches it. The batch ends there: the entries before it
  have been fully processed, and later entries and the summary line are
  never reached. The model's outcome for this is `Crashed`, and on it the
  model does not dispose the aggregator writer.
- There is no check for degenerate split geometry. A spread narrower than
  two columns gives an empty left page.
- A page whose try block throws is still counted in `pageCount`, like
  every other page. No count of failed pages is kept.
- An exception from writing the annotated image is caught by the page's
  `catch`, like any other. The page logs it and the batch continues.

## Model

| member | source | states |
|---|---|---|
| Text.ToLower | Program.cs:69-70 | the result has the input's length and maps every character through ASCII lower-casing |
| Text.NatToString | Program.cs:144 | the decimal rendering of the page count is non-empty, all digits, and has no leading zero unless it is "0" |
| Text.NatToStringValue | Program.cs:144 | reading the rendered digits back gives the number |
| Text.NatToStringInjective | Program.cs:227 | distinct counts render differently, so the size, tag-count and summary lines tell counts apart |
| Paths.CombineShape | Program.cs:59-60 | an empty second part gives the first; a rooted second part or an empty first gives the second; otherwise the result starts with the first and ends with the second, with one separator between them: the one the first ends with, or else one added |
| Paths.CombineRooted | Program.cs:59-60 | combining onto a rooted folder gives a rooted path |
| Paths.LastIndex | Program.cs:161 | the result is -1 or an index holding the character, and no later index holds it |
| Paths.GetExtension | Program.cs:70 | a non-empty extension is a suffix of at least two characters that starts with its only dot and holds no separator; an empty one means the path ends in a dot or every dot is followed by a separator |
| Paths.GetFileNameShape | Program.cs:161 | the file name is the path's end after its last separator and holds no separator |
| Paths.WithoutExtensionShape | Program.cs:161 | the cut name is a prefix of the name ending just before its last dot, or the whole name when it has no dot |
| Paths.GetFileNameWithoutExtensionShape | Program.cs:161 | the base name is a prefix of the file name and holds no separator |
| Sinks.EncodingWriter | Program.cs:355 | a tee reports the encoding of its leftmost underlying writer |
| Sinks.Broadcast | Program.cs:356-359 | one call on a tee becomes the same call on each underlying writer, left to right, `_a`'s before `_b`'s |
| Sinks.ReceivedBroadcast | Program.cs:353-359 | a writer receives one call on a sink once for every leaf it is |
| Sinks.BroadcastAllDelivery | Program.cs:353-359 | over a series of calls, a writer that is one leaf receives every call once in call order; a writer that is no leaf receives nothing |
| Sinks.ThreeWayFanOut | Program.cs:210-215 | `Tee(Tee(console, agg), log)` turns a call into the same call on console, aggregator and log, in that order; over any series of calls each of three distinct writers receives every call exactly once, in order, and no other writer receives anything |
| Sinks.RedirectedBroadcast | Program.cs:210-216 | through a redirected stream, aggregator and log each get a call once, and every other writer gets it as it would through the original stream |
| Sinks.RedirectedDelivery | Program.cs:210-216 | over a run of console lines, aggregator and log each receive every line once in order, and every other writer receives what the original console would have passed it |
| Sinks.RedirectedAfter | Program.cs:210-216 | the same, appended to what the writers had already received |
| Sinks.RedirectedRun | Program.cs:207-216 | with a fresh log and an aggregator not behind the console: the log gets exactly the lines, the aggregator gets them after what it had, every other writer gets what the unredirected console would pass |
| Sinks.Writers.Open | Program.cs:208 | `new StreamWriter` adds a new writer, distinct from every existing one, opened on the given path, and changes nothing else |
| Sinks.Writers.Close | Program.cs:208 | disposing adds the writer to the disposed set and leaves every sink not reaching it usable |
| Sinks.Writers.Send | Program.cs:356-359 | a call on a sink appends exactly its broadcast to the trace |
| Sinks.Writers.UsableRedirected | Program.cs:210-216 | a tee built from open writers is writable |
| Sinks.Writers.NextNotInUsable | Program.cs:208 | a writer not yet opened is a leaf of no writable sink |
| Sinks.Writers.NextReceivedNothing | Program.cs:208 | a writer not yet opened has received nothing |
| Sinks.Console.SetOut | Program.cs:212 | `Console.SetOut` replaces the output stream and keeps the error stream |
| Sinks.Console.SetError | Program.cs:216 | `Console.SetError` replaces the error stream and keeps the output stream |
| Sinks.Console.Write | Program.cs:219 | one console line appends its broadcast through the stream it belongs to |
| Raster.Bitmap.constructor | Program.cs:269 | `new SKBitmap(w, h)` is a live bitmap of that size |
| Raster.Bitmap.SetPixels | Program.cs:309 | filling the pixel memory keeps size and liveness |
| Raster.Bitmap.Dispose | Program.cs:312 | disposing marks the bitmap disposed and keeps its size and pixels |
| Raster.Crop | Program.cs:270 | the rectangle has size `(x2 - x1, y2 - y1)` and each pixel is the source pixel at the offset position |
| Raster.Subset | Program.cs:267-272 | a new live bitmap of size `(x2 - x1, y2 - y1)` holding that rectangle of the source |
| Raster.ApplyExifOrientation | Program.cs:319-348 | `TopLeft` returns the source object itself; any other origin returns a new bitmap, of size `(h, w)` for the four swapping origins and `(w, h)` for the other three |
| Raster.LoadAndOrientImage | Program.cs:303-314 | an unreadable file throws "Cannot open <path>"; otherwise the result is live, of the oriented size, the raw bitmap itself exactly for `TopLeft` (with the decoded pixels), and the raw bitmap is disposed exactly when the result is a different object |
| Splitter.HalveTruncating | Program.cs:167 | C#'s `/ 2` truncates toward zero: for a non-negative value it is the value halved and rounded down, for a negative one twice the result lies between the value and 0 and is at most one above the value |
| Splitter.SplitWidths | Program.cs:164-169 | the left width is at least 0; left and binder fit in the spread; the right page is one column wider than the left exactly when the width outside the binder is odd, and as wide otherwise |
| Splitter.SplitOddWidth | Program.cs:167-169 | a 101-column spread splits into 50 and 51 columns |
| Splitter.Suffixes | Program.cs:163-174 | two suffixes for a spread, one otherwise |
| Splitter.PageNames | Program.cs:179 | each page name is the base name plus its suffix, one per page |
| Splitter.SplitPages | Program.cs:163-174 | a spread gives two new, distinct bitmaps in the order `_L`, `_R`, both as high as the spread, holding columns `[0, half)` and `[half + BinderWidth, W)`; an unsplit entry gives the loaded bitmap itself with suffix "" |
| PageProcessor.TextOfKinds | Program.cs:219-261 | the header is framed by dashes, the tag heading and tag lines have their fixed form, error lines start with `[ERROR] ` and every other line with `[INFO] ` |
| PageProcessor.InsertDescendingAdds | Program.cs:236 | inserting adds exactly the one tag |
| PageProcessor.InsertDescendingSorts | Program.cs:236 | inserting into a descending list keeps it descending |
| PageProcessor.SortByProbabilitySorts | Program.cs:236 | the sorted tags are a permutation of the returned tags by non-increasing probability |
| PageProcessor.ErrorLinesMarked | Program.cs:219-261 | a line goes to the error stream exactly when its text starts with `[ERROR]` |
| PageProcessor.TryBlockThrows | Program.cs:221-251 | the try block throws exactly when one of the outside calls fails, and then throws what the first failing call threw; it always begins with the encoding line |
| PageProcessor.TryBlockWritesOut | Program.cs:221-251 | every try-block line goes to `Console.Out` |
| PageProcessor.TryBlockListsTags | Program.cs:233-237 | a completed try block lists every returned tag right after its first five lines, by non-increasing probability |
| PageProcessor.CatchBlockOnStreams | Program.cs:252-257 | the catch block writes only to `Console.Error`: nothing when nothing was thrown, one line, and one more when there is an inner exception |
| PageProcessor.TranscriptShape | Program.cs:219-264 | header and `Done` line are always written, to the output, with the try block's lines between them; the error stream gets exactly the catch block's lines, present exactly when a call failed |
| PageProcessor.AnnotateTags | Program.cs:291-296 | one label per tag in the order given, at x = 10 and y = 30, 60, 90, ... |
| PageProcessor.Say | Program.cs:219 | one page line is appended through the stream it belongs to |
| PageProcessor.ListTags | Program.cs:236-237 | the tag loop writes one line per tag, in the order given |
| PageProcessor.SaveAnnotated | Program.cs:240-246 | announces the annotated image, draws one label per prediction in the order given, then reports it saved or throws what writing it threw |
| PageProcessor.AnnotateStep | Program.cs:239-250 | both flags: the annotated image, labelled with the predictions it is given in their order; only `--save-images`: the skipping note and no labels; otherwise nothing |
| PageProcessor.TryStep | Program.cs:221-251 | the try block writes its lines up to the failing call and returns what that call threw; with both flags and a prediction, the image is labelled with the predictions as returned, not in sorted order |
| PageProcessor.ReportPrediction | Program.cs:232-250 | after the prediction: the tag count, the heading, every tag by descending probability, then the annotation step, whose labels follow the predictions as returned |
| PageProcessor.CatchStep | Program.cs:252-257 | the error line and, when there is one, the inner exception's line |
| PageProcessor.WritePage | Program.cs:218-261 | the page writes header, try block, catch block and `Done` line, in that order |
| PageProcessor.ProcessPage | Program.cs:205-264 | opens the page log on `<outputBase>/<page>.out`, restores both console streams and disposes the log on every path, appends exactly the transcript through the redirected streams, and delivers it once to the log and once more to the aggregator while every other writer sees the unredirected output |
| Program.InputArgument | Program.cs:39 | the input argument is the first argument not starting with `--`, and `images` when every argument does |
| Program.HasFlag | Program.cs:35-36 | a flag is set exactly when some argument equals it ignoring case |
| Program.FirstNonFlag | Program.cs:39 | the position of the first argument not starting with `--`, every argument before it starting with `--`; none when all do |
| Program.NormalizedEntry | Program.cs:59-60 | a rooted path is kept; an unrooted one is joined onto the folder: an empty path gives the folder, an empty folder gives the path, and otherwise the result is the folder, then one separator (the folder's own or an added one), then the path; the split flag is kept |
| Program.NormalizeManifestPaths | Program.cs:54-62 | the loop rewrites the array in place to the normalised entries |
| Program.NormalizedShape | Program.cs:56-62 | normalising keeps count, order and every split flag, leaves rooted paths alone and, against a rooted folder, makes every path rooted |
| Program.NormalizeIdempotent | Program.cs:56-62 | against a rooted folder a second normalisation changes nothing |
| Program.DirectoryEntries | Program.cs:67-72 | the entries are exactly the listed `.jpg`/`.jpeg` files, in any case, each a spread |
| Program.DirectoryEntriesAppend | Program.cs:67-72 | the filter keeps the enumeration order |
| Program.TotalPagesBounds | Program.cs:176-178 | a batch has one to two pages per entry, two for every entry exactly when every entry is a spread |
| Program.BatchLogsLength | Program.cs:207 | one log per page |
| Program.BatchWrotePages | Program.cs:176-178 | the pages written, entry by entry, are as many as the batch's pages |
| Program.ProcessNthPage | Program.cs:177-189 | one page turn raises the counter, opens and closes that page's log as the next file, and appends that page's events |
| Program.ProcessPages | Program.cs:176-190 | the page loop raises the counter once per page, in order, opens and closes one log per page, and appends each page's redirected transcript numbered on from the counter |
| Program.ProcessSpread | Program.cs:160-190 | the pages of the loaded bitmap are the entry's page names, processed in turn, and the loaded bitmap ends disposed with its size and pixels unchanged |
| Program.ProcessImageFile | Program.cs:147-191 | an undecodable image throws "Cannot open <path>" before anything is written; otherwise the counter rises by the entry's page count and one log per page is opened, written with that page's transcript, and closed |
| Program.FirstUndecodable | Program.cs:127-141 | the first entry the decoder cannot read; every entry before it decodes |
| Program.AllDecodeSnoc | Program.cs:127-141 | past a decodable entry, every entry so far decodes |
| Program.DecodablePrefix | Program.cs:127-141 | the entries gone through are the longest prefix whose images all decode, the whole list exactly when every image decodes, and otherwise followed by one that does not |
| Program.FirstUndecodableAt | Program.cs:127-141 | an entry loop that stops at entry `i` stops at the first undecodable entry |
| Program.SelectEntries | Program.cs:39-79 | a manifest when the input argument names an existing `.json` file, a directory otherwise, and none when it is neither |
| Program.ProcessNthEntry | Program.cs:127-141 | one entry turn succeeds exactly when its image decodes, and then its pages follow those before it; when it throws, nothing is opened, disposed or written |
| Program.ProcessEntries | Program.cs:123-141 | the entries are processed in order until the first undecodable one, whose exception ends the loop; every entry before that one has its logs opened, disposed and written in order; completing, the count is the batch's total pages |
| Program.RunBatch | Program.cs:117-144 | opens `image_out/aggregator.txt` first and processes the entries; completing, it writes the summary line with the total page count and disposes the aggregator; an undecodable image ends the batch with its exception after the earlier entries' pages, with no summary and the aggregator not disposed |
| Program.OpenAggregator | Program.cs:120-121 | the aggregator is opened as the next writer, on `image_out/aggregator.txt` under the base folder, and nothing else changes |
| Program.RunEntries | Program.cs:123-144 | once the aggregator is open: the entries up to the first undecodable one are processed; completing, the summary follows and the aggregator is disposed; crashing, neither happens |
| Program.FinishBatch | Program.cs:143-145 | the summary line goes to the output stream, then the aggregator is disposed, and nothing else is opened |
| Program.Exit | Program.cs:77-84 | an early exit writes its one line and nothing else |
| Program.ExitEarly | Program.cs:65-106 | the exits in order: input not found, then no entries (before any setting is read), then missing settings |
| Program.Dispatch | Program.cs:75-144 | exits early exactly on a missing input, no entries or missing settings, and otherwise runs the batch with the flags from the arguments: the files, disposed writers and trace are those of the batch on both the completing and the crashing path |
| Program.Execute | Program.cs:32-145 | the whole run: the outcome is decided by the input, the entries, the settings and the decoder, in that order; a completed run has opened the aggregator and one log per page, disposed them all and written every page's transcript and the summary; a crashed run has done the same for the entries before the undecodable one, without the summary and without disposing the aggregator |

## Left out

- Pixel transforms of `ApplyExifOrientation`, `ExtractSubset`, `DrawBitmap` and `DrawText`: these are SkiaSharp canvas operations whose code is not part of this model.
- Raster.ApplyExifOrientation: says nothing about the new bitmap's pixels, only its identity and size.
- Raster.LoadAndOrientImage: states the decoded pixels only for `TopLeft`; JPEG decoding is a parameter (`codec`), not modelled.
- Raster.Bitmap.constructor: leaves the new bitmap's pixel memory unspecified, as allocation leaves it.
- Raster.Subset: the copy is independent of the source; `ExtractSubset`'s memory sharing is not modelled.
- JPEG encoding, the Custom Vision clients and `ClassifyImageAsync`: the outcome of each, and of writing the annotated image, is a `PageRun` input per page number.
- PageProcessor.SortByProbabilitySorts: sorts an integer key standing for the double probability; `OrderByDescending`'s stability among equal probabilities is not stated.
- `{tag.Probability:P2}` formatting: each prediction carries its rendered percentage as text.
- PageProcessor.AnnotateTags: models only the label layout; fonts, the yellow paint, `Directory.CreateDirectory` and the JPEG file are not modelled.
- Text.ToLower: maps only ASCII letters, not every mapping `ToLowerInvariant` and `OrdinalIgnoreCase` make.
- Program.FirstNonFlag: `StartsWith("--")` is modelled as an ordinal prefix test, which is what the culture-sensitive test gives for ordinary arguments.
- Paths.CombineShape: Unix path rules only; Windows separators, drive letters and UNC paths are not modelled.
- `Path.GetFullPath` and `Path.GetDirectoryName` of the manifest: the manifest's folder is an input (`manifestFolder`).
- JSON deserialisation of the manifest: the entries are an input; a `null` document is the empty list.
- `File.Exists` and `Directory.Exists`: the file system is an input; a directory's enumeration order is part of it.
- Configuration loading and `Guid.Parse`: only whether every setting is present is an input. A missing `appsettings.json` or a malformed project id throws in the source; that is not modelled.
- `Directory.CreateDirectory(outputBase)`: not modelled.
- `Stopwatch` timings: each page's elapsed text and the batch's are inputs.
- `StreamWriter` creation failures: opening a writer always succeeds. Every writer has `AutoFlush` set, so each line written is in its file as soon as it is written; the model keeps the trace of lines and does not model buffering.
- Sinks.Writers.Open: tracks writers, not file contents. Opening a path with `append: false` truncates the file, so when two writers are opened on one path the later one wipes what the earlier wrote (for example `scan.jpg` and `scan.JPEG` both give `scan_L.out`, and so does a manifest that lists one image twice). The model records both writers and their calls but does not state what the file holds at the end.
- Program.RunBatch: on the crashing path the aggregator is not disposed. Nothing guarantees that `Main`'s `using` scope runs its `Dispose` when an exception leaves it uncaught, so the model does not claim it. Because of `AutoFlush`, every line the aggregator received is already in its file either way.
- The text kept for the exception `LoadAndOrientImage` throws is its message `Cannot open <path>`; the type name and stack trace that `ToString()` adds are not modelled.
- Program.ProcessImageFile: the page bitmap is not passed to the page step, whose outside results come from `PageRun`; the two split bitmaps, which the source never disposes, are not tracked.
- Program.RunBatch: the page counter is an unbounded `nat`; the source's `int` would wrap past 2^31 - 1 pages.
- Program.Execute: the runtime's report of the unhandled decode exception is not modelled; the run ends as `Crashed` with that exception.
- `TeeTextWriter`'s other inherited `TextWriter` overloads, whose calls reach the four overrides through the base class, are not modelled.
- Concurrency: the program is single-threaded; `GetAwaiter().GetResult()` is a plain call here.
