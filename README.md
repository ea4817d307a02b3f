# uShow session parser and weekly histogram, in Dafny

This project models the core of the uShow uroflow viewer (`FlowShow.java` and `Session.java`).
The viewer reads the CSV records a uroflow device produced and turns them into measurement
sessions. `Gimme5` does this in batches of five:
- it scans for a header record, meaning one whose field 0 contains `Ver`;
- it reads the header's date, time and peak-flow fields;
- it collects the `(time, rate)` samples that follow while field 0 is numeric.

`main` then does two things. It draws one "Flow" chart per batch. It also feeds every session
to a weekly histogram of qMax, which has one open window: an anchor date and 30 counts. A
session dated more than six days after the anchor closes the window, which is emitted as a
series named by its anchor. The window still open at the end is emitted as the last series.

The project has three layers:
- **Specification functions** say what the code computes:
  - `ParserSpec.Collect` is one call of `Gimme5`, read record by record;
  - `ParserSpec.AllSessions` reads the whole file session by session;
  - `HistogramSpec.Step`, `Run` and `Finish` are the histogram, as a fold over the sessions.
- **Lemmas** state what the code promises about those functions:
  - batching neither loses nor repeats a session;
  - only header records start sessions;
  - the header fields map onto the session's fields;
  - the sample-block rules hold;
  - every session is counted once, in its own bin;
  - windows close only after a week;
  - window names are more than a week apart.
- **Imperative methods** follow the source's own loops and state: a reader cursor, the session
  list, the `Integer[30]` array updated in place, and the series collection. Each method is
  proved against the specification functions.

Modules:
- `Sessions` (session.dfy): the immutable `Session` record.
- `ParserSpec` (parser_spec.dfy) and `ParserProperties` (parser_properties.dfy): the parser as
  functions, and its properties.
- `Parser` (parser.dfy): `Gimme5` over a `CsvReader` cursor and a `SessionList`.
- `HistogramSpec` (histogram_spec.dfy) and `HistogramProperties` (histogram_properties.dfy): the
  histogram as a fold, and its properties.
- `HistogramAccumulator` (histogram.dfy): the class `WeeklyHistogram`, which holds the locals of
  `main`.
- `Viewer` (viewer.dfy): `main`'s batch loop, from line 184 on.

External library calls become parameters: `LocalDate.parse`, `Integer.parseInt`,
`Float.parseFloat` and `Double.parseDouble`. Each is a partial function in the `Parsers` record
and returns `None` where Java throws. A date is a day number, so `plusDays(n)` is `+ n` and
`isAfter` is `>`. Floats are reals.

Two behaviours of the code are worth knowing when reading the model:
- **The record that ends a sample block is consumed.** It is read at line 307 and abandoned at
  line 317, and the next read is at line 281. So a header right after a block is never
  recognised, and `ParserProperties.BackToBackHeaderIsSwallowed` shows this with two complete
  sessions written back to back.
- **Two kinds of record inside a sample block lose the session.** The first is an empty
  record: reading its field 0 throws outside the inner `try`. The second is a numeric record
  without a field 3. Reading field 3 throws inside the inner `try`, and its handler at line 312
  reads `nextLine[3]` again to log it. In both cases the exception reaches the handler at
  line 330, and the session being built is lost. `ParserProperties.ShortSampleLosesSession`
  shows this. A numeric record whose field 3 exists but does not parse is only skipped, as
  `ParserProperties.BadRateIsSkipped` shows.

## Model

| member | source | states |
|---|---|---|
| Sessions.NewSession | PCSoftware/uShow/src/main/java/com/uShow/Session.java:21-63 | every getter returns the constructor argument stored for it. The floats are taken in the order (qMax, tEnd, tPeak), so `gettEnd` gives the second float and `gettPeak` the third. The date may be absent |
| ParserSpec.Contains | PCSoftware/uShow/src/main/java/com/uShow/FlowShow.java:282 | `contains` holds exactly when the text occurs at some position of the field |
| ParserSpec.IsNumeric | PCSoftware/uShow/src/main/java/com/uShow/FlowShow.java:342-352 | false for null; otherwise true exactly when `Double.parseDouble` accepts the string |
| ParserSpec.ParseHeader | PCSoftware/uShow/src/main/java/com/uShow/FlowShow.java:283-299 | a header is read only from a record that has fields up to 17 and a non-empty field 3 |
| ParserSpec.SampleOf | PCSoftware/uShow/src/main/java/com/uShow/FlowShow.java:308-314 | a numeric record with a field 3 adds at most one sample. It adds one exactly when fields 0 and 3 both parse, and the sample is (field 0, field 3). A record without field 3 never gets here: it `Breaks` the block |
| ParserSpec.MakeSession | PCSoftware/uShow/src/main/java/com/uShow/FlowShow.java:325 | the session gets the header's date, hour, minute and second, qMax, tEnd from field 13 and tPeak from field 11, and the series named from the header holding the block's samples |
| ParserSpec.Block | PCSoftware/uShow/src/main/java/com/uShow/FlowShow.java:307-319 | the sample loop stops at or after where it started and never reads past the input |
| ParserSpec.AttemptAt | PCSoftware/uShow/src/main/java/com/uShow/FlowShow.java:281-328 | a record that starts a session, kept or lost, moves the cursor strictly forward |
| ParserSpec.Collect | PCSoftware/uShow/src/main/java/com/uShow/FlowShow.java:279-337 | one call returns at most the requested number of sessions, and fewer only when the input is exhausted. The cursor only moves forward, and a session takes at least one record |
| ParserSpec.AllSessions | PCSoftware/uShow/src/main/java/com/uShow/FlowShow.java:281-328 | a file holds at most one session per record |
| ParserSpec.Batches | PCSoftware/uShow/src/main/java/com/uShow/FlowShow.java:204-206 | `main` calls `Gimme5` until a call returns fewer than five: every batch but the last has five sessions, and the last has fewer |
| ParserProperties.CollectInBlock | PCSoftware/uShow/src/main/java/com/uShow/FlowShow.java:307-327 | inside a sample block, a broken block loses the session and scanning resumes after the record that broke it. A finished block adds its session to the batch |
| ParserProperties.CollectByAttempt | PCSoftware/uShow/src/main/java/com/uShow/FlowShow.java:281-332 | reading record by record collects what reading session by session gives: skipped records are passed over, aborted sessions are dropped, and found sessions are taken in order |
| ParserProperties.CollectThenContinue | PCSoftware/uShow/src/main/java/com/uShow/FlowShow.java:204-206 | a batch followed by everything read from the cursor it leaves is everything read from where it started: the persistent cursor neither drops nor repeats a session |
| ParserProperties.BatchIsPrefix | PCSoftware/uShow/src/main/java/com/uShow/FlowShow.java:323-327 | a call asking for n sessions returns min(n, remaining) of them, and they are the next ones in file order |
| ParserProperties.ShortBatchIsLast | PCSoftware/uShow/src/main/java/com/uShow/FlowShow.java:333-336 | after a call returns fewer than five, another call would return none |
| ParserProperties.BatchesCoverAll | PCSoftware/uShow/src/main/java/com/uShow/FlowShow.java:204-206 | the batches laid end to end are exactly the sessions of the file, in order |
| ParserProperties.AttemptOutcome | PCSoftware/uShow/src/main/java/com/uShow/FlowShow.java:281-282 | a record yields a session exactly when field 0 contains "Ver", its header reads and its block is not broken. It is passed over exactly when it lacks field 0, lacks "Ver" or its header fails |
| ParserProperties.SkippedRecordIsPassedOver | PCSoftware/uShow/src/main/java/com/uShow/FlowShow.java:281-282 | a record outside a sample block that starts no session changes neither the batch nor the sessions read |
| ParserProperties.BadHeaderYieldsNoSession | PCSoftware/uShow/src/main/java/com/uShow/FlowShow.java:283-299 | a missing field, an empty field 3, or an unparseable hour, minute, second or float yields no session (the exception escapes to line 330) |
| ParserProperties.GoodHeaderIsRead | PCSoftware/uShow/src/main/java/com/uShow/FlowShow.java:283-299 | the converse: a header with all its fields, a non-empty field 3 and parseable hour, minute, second and floats is read whatever the date parser returns, and its date is that parser's result, possibly absent |
| ParserProperties.UndatedSessionIsKept | PCSoftware/uShow/src/main/java/com/uShow/FlowShow.java:284-289 | a header whose date does not parse still yields a session, stored with no date and with its samples |
| ParserProperties.HeaderFieldMapping | PCSoftware/uShow/src/main/java/com/uShow/FlowShow.java:283-325 | a session's date is field 3 without its first character, or absent if that does not parse. Hour, minute and second are fields 5-7, qMax is field 9, tPeak field 11, tEnd field 13. Its samples are those of the following block |
| ParserProperties.SessionsComeFromHeaders | PCSoftware/uShow/src/main/java/com/uShow/FlowShow.java:282 | every session read was built from a record whose field 0 contains "Ver" |
| ParserProperties.RunEnd | PCSoftware/uShow/src/main/java/com/uShow/FlowShow.java:307-318 | the sample loop runs over the maximal run of records that have a field 3 and a numeric field 0 |
| ParserProperties.BlockReference | PCSoftware/uShow/src/main/java/com/uShow/FlowShow.java:307-318 | a block's samples are the parseable (field 0, field 3) pairs of that run, in file order; an unparseable one is skipped without ending the block. The record that ends the block is consumed and is not a sample. The block is broken, and the session lost, when that record has no field 0 or has a numeric field 0 and no field 3 (line 312 reads field 3 again) |
| ParserProperties.ShortSampleLosesSession | PCSoftware/uShow/src/main/java/com/uShow/FlowShow.java:308-313 | a header followed by the numeric record `0.1` with no field 3 yields no session: the file holds none, and one call returns none with the cursor at the end |
| ParserProperties.BadRateIsSkipped | PCSoftware/uShow/src/main/java/com/uShow/FlowShow.java:308-314 | a numeric record whose field 3 does not parse adds no sample, and the block and its session go on |
| ParserProperties.BackToBackHeaderIsSwallowed | PCSoftware/uShow/src/main/java/com/uShow/FlowShow.java:307-317 | two complete sessions written with no separating record yield one session |
| Parser.CsvReader.ReadNext | PCSoftware/uShow/src/main/java/com/uShow/FlowShow.java:281 | `readNext` gives the record under the cursor and advances it, or null at the end of input, where the cursor stays |
| Parser.SessionList.Add | PCSoftware/uShow/src/main/java/com/uShow/FlowShow.java:326 | appends the session after the earlier entries |
| Parser.ReadSamples | PCSoftware/uShow/src/main/java/com/uShow/FlowShow.java:307-319 | the samples read and the cursor left behind are those of `Block`, and the loop throws exactly when `Block` says the block is broken |
| Parser.ReadSession | PCSoftware/uShow/src/main/java/com/uShow/FlowShow.java:282-326 | reading from a header gives the outcome `AttemptAt` describes: the session and the cursor after its block, or no session where the header or the block throws |
| Parser.HandleRecord | PCSoftware/uShow/src/main/java/com/uShow/FlowShow.java:282-328 | after one record, reading on from the cursor still completes the promised batch. Each session found has been appended to the list |
| Parser.ScanRecords | PCSoftware/uShow/src/main/java/com/uShow/FlowShow.java:280-332 | the try block reads until end of input, a fifth session, or an exception, keeping the same promise |
| Parser.Gimme5 | PCSoftware/uShow/src/main/java/com/uShow/FlowShow.java:270-339 | returns the number of sessions of `Collect` from the cursor (0..5) and appends exactly those sessions to the list, leaving the earlier entries unchanged. The cursor is left where `Collect` ends |
| HistogramSpec.Round | PCSoftware/uShow/src/main/java/com/uShow/FlowShow.java:219 | `Math.round` gives the integer within one half of qMax, halves rounding up |
| HistogramSpec.EntryOf | PCSoftware/uShow/src/main/java/com/uShow/FlowShow.java:219 | the histogram sees a session's date and the bin within one half of its qMax |
| HistogramSpec.Init | PCSoftware/uShow/src/main/java/com/uShow/FlowShow.java:184-196 | before the first session there is no anchor, all 30 bins are 0, and no series is emitted |
| HistogramSpec.Emit | PCSoftware/uShow/src/main/java/com/uShow/FlowShow.java:224-231 | a closed window becomes the series named by its anchor, holding (i, count[i] * 1.0) for every bin in order |
| HistogramSpec.Step | PCSoftware/uShow/src/main/java/com/uShow/FlowShow.java:217-241 | one session keeps the 30 bins, never takes back an emitted series and adds at most one. Once there is an anchor there always is one |
| HistogramSpec.Run | PCSoftware/uShow/src/main/java/com/uShow/FlowShow.java:205-243 | the sessions processed in order keep the array's size and every emitted series, and add at most one series per session |
| HistogramSpec.Points | PCSoftware/uShow/src/main/java/com/uShow/FlowShow.java:229-233 | an emitted series holds one point (i, count[i] * 1.0) per bin, in index order |
| HistogramSpec.Bump | PCSoftware/uShow/src/main/java/com/uShow/FlowShow.java:240 | a session adds one to its own bin and changes no other bin |
| HistogramSpec.Finish | PCSoftware/uShow/src/main/java/com/uShow/FlowShow.java:251-260 | the final flush keeps the series already emitted and adds the open window exactly once, so there is one series more than there were closes |
| HistogramProperties.RunAppend | PCSoftware/uShow/src/main/java/com/uShow/FlowShow.java:205-243 | feeding the sessions batch by batch is feeding them all in order: the histogram carries over between batches |
| HistogramProperties.StepEmitsOnlyAfterWeek | PCSoftware/uShow/src/main/java/com/uShow/FlowShow.java:217-241 | a session never takes back an emitted series and emits at most one. It emits one exactly when there is an anchor and the session is dated strictly after anchor + 6 days |
| HistogramProperties.CloseStartsNewWindow | PCSoftware/uShow/src/main/java/com/uShow/FlowShow.java:222-238 | on a close, the old window is emitted under its anchor with its counts. The new window is anchored at the session's date: every bin is 0 except the session's, which is 1 |
| HistogramProperties.OtherSessionJoinsWindow | PCSoftware/uShow/src/main/java/com/uShow/FlowShow.java:217-241 | any other session, including one dated before the anchor, only adds one to its bin; the first session also sets the anchor |
| HistogramProperties.HistogramShape | PCSoftware/uShow/src/main/java/com/uShow/FlowShow.java:229-259 | every histogram series holds the 30 bins at x = 0..29, in order |
| HistogramProperties.SumPoints | PCSoftware/uShow/src/main/java/com/uShow/FlowShow.java:228-231 | the y values of an emitted series add up to `totalCounts`, the sum of the window's counts |
| HistogramProperties.HistogramCountsEverySession | PCSoftware/uShow/src/main/java/com/uShow/FlowShow.java:217-260 | the counts of all histogram series together equal the number of sessions |
| HistogramProperties.HistogramCountsEachBin | PCSoftware/uShow/src/main/java/com/uShow/FlowShow.java:217-260 | bin b, added up over all series, is the number of sessions whose qMax rounds to b |
| HistogramProperties.HistogramNamesSpaced | PCSoftware/uShow/src/main/java/com/uShow/FlowShow.java:222-252 | the series are named by anchor dates that increase by more than six days each, so no two share a name |
| HistogramProperties.ExampleWeeks | PCSoftware/uShow/src/main/java/com/uShow/FlowShow.java:217-260 | sessions on days 0, 3, 8 and 20 with qMax 10, 12, 25 and 5 give three series. Day 0 holds bins 10 and 12, day 8 holds bin 25, and day 20 holds bin 5 |
| HistogramAccumulator.WeeklyHistogram.constructor | PCSoftware/uShow/src/main/java/com/uShow/FlowShow.java:184-195 | no anchor, 30 zero bins, no series |
| HistogramAccumulator.WeeklyHistogram.CloseWindow | PCSoftware/uShow/src/main/java/com/uShow/FlowShow.java:224-235 | the in-place loop adds the anchor's series with every bin in order, zeroes all 30 bins and returns their sum |
| HistogramAccumulator.WeeklyHistogram.Add | PCSoftware/uShow/src/main/java/com/uShow/FlowShow.java:217-241 | the anchor, the array and the series collection become what `Step` gives for the session |
| Viewer.RatesOf | PCSoftware/uShow/src/main/java/com/uShow/FlowShow.java:211 | a Flow chart holds each session's own rate series, in batch order |
| Viewer.FlowChart | PCSoftware/uShow/src/main/java/com/uShow/FlowShow.java:208-249 | a Flow chart is titled "Flow" with axes "Sec" and "mL/Sec", and holds each session's rate series in batch order |
| Viewer.HistogramChart | PCSoftware/uShow/src/main/java/com/uShow/FlowShow.java:261 | the histogram chart is titled "Histogram" with axes "mL/Sec" and "Count", and holds the histogram series |
| Viewer.Charts | PCSoftware/uShow/src/main/java/com/uShow/FlowShow.java:184-261 | the charts shown are one Flow chart per batch, in order, followed by exactly one Histogram chart of all sessions |
| Viewer.FlowCharts | PCSoftware/uShow/src/main/java/com/uShow/FlowShow.java:249 | one "Flow"/"Sec"/"mL/Sec" chart per batch, in batch order |
| Viewer.BatchesStep | PCSoftware/uShow/src/main/java/com/uShow/FlowShow.java:204-206 | the batch one call reads is the next of `Batches`, and the loop goes on exactly when that batch was full |
| Viewer.PlotBatch | PCSoftware/uShow/src/main/java/com/uShow/FlowShow.java:210-243 | the inner loop collects the batch's rate series in order and leaves the histogram having processed every session read so far |
| Viewer.ShowBatch | PCSoftware/uShow/src/main/java/com/uShow/FlowShow.java:205-250 | one pass reads the next batch, adds its Flow chart and feeds its sessions to the histogram |
| Viewer.ShowFlow | PCSoftware/uShow/src/main/java/com/uShow/FlowShow.java:184-261 | `main` shows one Flow chart per batch of `Batches`, then one "Histogram"/"mL/Sec"/"Count" chart with the weekly series of all sessions |

## Left out

- Viewer.ShowFlow: requires that none of three crashes of `main` happens, and gives the charts in every other case:
  - a qMax that rounds outside 0..29 (lines 220, 237, 240);
  - a session without a date after the anchor is set (`isAfter` on null, line 222);
  - no dated session at all (`toString` on null, line 252).
- Viewer.ShowFlow: two other crashes of `main` are not excluded, so the model gives charts for some inputs on which `main` stops with an exception:
  - line 214 reads the sample at index `round(tPeak / .1 + 19)`, which throws when the series is shorter than that, for example a session with no samples;
  - line 211 adds a rate series whose name is already in the batch's collection, which the charting library rejects.
- HistogramAccumulator.WeeklyHistogram.Add: requires the session's bin to be in 0..29 and, once an anchor is set, a date. Both are crashes in the source, not handled cases.
- The peak marker series (lines 212-215): it uses floating-point offsets and a rounded sample index, and `getDataItem` can throw on a short series. The Flow charts model only the rate series.
- The rescale factor (lines 300-302) is computed and never used. The two volume fields it reads are still parsed, and a failure there still drops the session.
- `gotHeader` (lines 272, 303, 316) and `hgramEmpty` (lines 187, 196, 221, 238) are written and never read.
- Console output (`printf`, `printStackTrace`) is left out. `totalCounts` is returned by `CloseWindow` instead of printed.
- The file dialog, `FileReader` and CSV tokenisation (lines 189-203) are left out: the records arrive already split into fields. An unopenable file, which leaves `reader` null, is not modelled, and neither are I/O exceptions from `readNext`.
- `LocalDate` is a day number, so a histogram series is named by that number rather than its ISO text. The rate series name is built from the date text as in the source.
- Floats are exact reals, and the library parsers are parameters: NaN, infinities, float rounding and the exact text each parser accepts are not modelled.
- JFreeChart behaviour:
  - `XYSeries` sorts its items by x by default; the model keeps samples in the order they are appended.
  - `XYSeriesCollection.addSeries` rejects a duplicate series key. Two sessions with the same date and time in one batch are not checked; the histogram names are proved distinct.
- Chart rendering is left out: the `FlowShow` constructor, `createChart` and showing the window (lines 82-173, 263-265).
- `uxfer.java` is a socket client (I/O only). `MainStateTask.h`, `Outlier.h` and `PkPicker.h` hold declarations without behaviour. None of these is part of this model.
