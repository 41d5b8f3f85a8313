# Verified model of the bar manager's device side

This project models, in Dafny, the parts of the device manager where a mistake is costly and
hard to see: the life of a receipt printer whose hardware hangs, the registry that moves
payment terminals to new ids, the two printer languages and the interpreters that read them,
the terminal sweep that has to answer in time, the log uplink, and the fiscal day of an
Italian till. It proves what each of them promises, over all inputs and over all runs.

How the project is laid out:

- `Options`, `Texts`, `Numerals`, `Images`: small shared vocabularies (optional values, text
  and money as text, decimal numbers as bytes, one-bit pictures and how they are stacked).
- `PrinterMachine`, `PrinterInvariant`, `PrinterRuns`, `PrinterTheorems`, `PrinterJournal`,
  `PrinterProgress`, `PrinterDevice`: one printer device. The machine's steps are the stretches
  of code between two awaits of the event loop, the operations of the device thread (first in,
  first out, one at a time), and the delivery of their results. The invariant has seven parts,
  each kept by every step; the theorems follow from it, on what never happens and, in
  `PrinterProgress`, on what does; `PrinterDevice` is the class itself, with a method for every
  stretch of code, each proved to perform exactly its step.
- `PrinterRender`, `PrinterDesk`: rendering on that machine. Each handle has its shim, the
  device its collected pages; a job being rendered makes calls, or one that raises; every way
  out of a rendering resets the pages and the shim of the handle installed at that moment.
- `TsplPages`, `TsplRender`, `TsplPrinter`, `TsplStream`, `TsplRoundTrip`: receipts on label
  printers, from page images to bytes to labels, and the incremental interpreter. `TsplBytes`
  reads the bytes line by line, `TsplQueries` puts status queries between the jobs,
  `TsplCommands` says what single lines and headers mean.
- `BitmapRender`, `EscPosPrinter`, `EscPosStream`: the same for ESC/POS raster receipts;
  `EscPosQueries` puts status queries anywhere among them, `EscPosText` follows styled text,
  `EscPosCommands` the commands that no receipt shows.
- `TextShim`, `TextLines`: text calls turned into raster lines, their styles and their letters.
- `TerminalIds`, `TerminalMerge`, `TerminalLoad`, `TerminalResolve`, `TerminalSurvivor`,
  `TerminalChoice`, `TerminalRuns`, `TerminalEffects`, `TerminalRegistry`: the terminal
  registry, from loading an old file to any run of calls. An id is the hash of its parts, taken
  to be injective, and is written as those parts; a till's own text is a separate case.
- `TerminalSweep`, `TerminalDiscovery`, `TerminalReach`: the bounded sweep and its probes, over
  real-valued time, and what is tried with how much patience.
- `UplinkLedger`, `UplinkHandler`, `UplinkOrder`: the log uplink as a ledger of lines and as a
  class, and the order in which its lines wait and go.
- `FiscalDocument`, `FiscalTender`, `FiscalRoundTrip`, `FiscalJournal`, `FiscalPrinter`,
  `FiscalDay`: the fiscal document, the XML tree and its reading, the journal, and the way of
  the money. Amounts are whole cents.

Four properties turn out to hold only under a condition, and the project proves the
condition exactly:

- A caller is told "cancelled" although the whole job was printed exactly when the worker is
  cancelled after its write ended well and before it went on (`PrinterJournal.MisledExactly`);
  `PrinterJournal.AMisledCaller` gives such a run.
- Two deliveries to the label interpreter answer like one unless the bytes together kill the
  connection while the first delivery alone does not and holds a status query
  (`TsplStream.ChunkingInvariance`); `TsplStream.LostReply` and `TsplStream.LostReplyBySize`
  give such inputs. Which bytes kill it is read off the bytes themselves: a payload under a
  header whose sizes no picture can have, a SIZE line with an infinite number (`SIZE inf,1`,
  `SIZE 1e999 mm, 1 mm`), a PRINT line with a count of more than 4300 digits, or a PRINT of a
  picture without area (`TsplStream.DiesExactly`); bytes without such lines in which every
  header has positive, possible sizes never do (`TsplStream.PositiveSizesLive`).
- All divisions of a job's texts into calls put out the same exactly when no line ends within
  the text after the last set, cut or image, or that text itself ends a line
  (`TextShim.DivisionMattersExactly`); `TextShim.UnfinishedTextDependsOnItsDivision` gives a
  job for which it is not so.
- The log uplink accounts for every refused line throughout a run exactly when, by the
  schedule alone, every write to its counter is on time: a thread writes when as many counts
  have been completed since the counter was last set to nothing as at its own read, a flush
  likewise, and a notice is put back when there have been none
  (`UplinkLedger.AccountedExactlyOnTime`). `UplinkLedger.ARefusalForgotten` and
  `UplinkLedger.ARefusalCountedTwice` are runs where it is not so; that the counter was changed
  in between is not enough (`UplinkLedger.AChangeThatDoesNotShow`).

The comment above the sweep's second pass speaks of every silent address being tried a second
time; the code skips the pass when its patience would be too short, and also marks the answer
as cut short when the caller's own slow timeout is less than a second above the fast one. The
model follows the code.

## Model

| member | source | states |
|---|---|---|
| PrinterRuns.StepKeeps | src/devices/printer.py:330-564 | every step of the device (calls, opening, worker, device thread, disconnect) keeps the whole invariant: lock, handles, jobs, writes, results |
| PrinterRuns.ReachableInv | src/devices/printer.py:898-1092 | every state any run from a fresh device leads to satisfies the invariant |
| PrinterRuns.InternalStepsAreLighter | src/devices/printer.py:898-1092 | each step the device takes by itself strictly lowers a weight, so there is no livelock |
| PrinterRuns.QuietRunsEnd | src/devices/printer.py:898-1092 | once calls stop, at most that weight of further steps are taken, in whatever order |
| PrinterTheorems.WaitingIsCarried | src/devices/printer.py:535-564 | a caller still waiting has its job queued behind a live worker or a disconnect that has yet to drain the queue, held by the worker, or written by a write that will answer |
| PrinterTheorems.NoCallerIsStranded | src/devices/printer.py:447-514 | a reachable state with no step of its own left has no waiting caller, an empty queue, one row for every job, and counts as idle |
| PrinterTheorems.LeftAloneEveryCallerIsAnswered | src/devices/printer.py:447-514 | left alone from any reachable state, every run is bounded and its end has answered every caller |
| PrinterTheorems.AnEndExists | src/devices/printer.py:898-1092 | such an end can be reached from every reachable state |
| PrinterTheorems.OperationsTouchOpenHandles | src/devices/printer.py:255-261 | the operation the device thread runs next touches only a handle that is open, and nothing behind a close touches the handle it closes |
| PrinterTheorems.StrayHandlesAreTouchedByNobody | src/devices/printer.py:409-432 | a handle closed by a thread of its own is neither installed nor touched by any queued operation, so no close overlaps a write |
| PrinterTheorems.OneHandleOneWorker | src/devices/printer.py:348-378 | at most one handle is installed; an opening that completes finds no handle, no worker and no orphaned write; a live worker has an open handle |
| PrinterTheorems.OneOpeningAtATime | src/devices/printer.py:354-362 | at most one opening waits in the device thread, and somebody will pick its handle up or close it |
| PrinterTheorems.DisconnectClosesEveryHandle | src/devices/printer.py:435-480 | after a disconnect, once nothing is left to do, every handle ever opened is closed, late openings included, and the worker is dead |
| PrinterTheorems.ClosedForGood | src/devices/printer.py:647-650 | no step reopens a closed handle |
| PrinterJournal.JournalTruth | src/devices/printer.py:383-407 | no job ever has two rows; an ok row and a success answer only for a job wholly on paper; a job out of hand has exactly one row, ok exactly when wholly on paper |
| PrinterJournal.SettledForever | src/devices/printer.py:898-1092 | over any run nothing changes the paper, the row or the answer of a job nobody has in hand |
| PrinterJournal.FailedBeforeWritingPrintsNothing | src/devices/printer.py:971-1017 | a job refused by the status query or failed while rendering puts no byte on the device in any continuation, its row says failed and its caller is not told success |
| PrinterJournal.FirstComeFirstWritten | src/devices/printer.py:898-900 | while the device thread writes a job, every job enqueued before it is out of hand |
| PrinterJournal.MisledExactly | src/devices/printer.py:1035-1072 | over all steps: a caller becomes told-an-error with the whole job on paper if and only if the cancellation reaches the worker after its write ended well and the caller still waits |
| PrinterJournal.AMisledCaller | src/devices/printer.py:1050-1072 | a concrete run to such a caller: row ok, answer cancelled |
| PrinterJournal.BusyExactly | src/devices/printer.py:518-533 | pending_jobs is at least 1 exactly when a job is queued with a live worker, held, or still being written by a cancelled worker; any unfinished write implies it; a dead worker without an orphaned write counts 0 |
| PrinterJournal.BusyEnds | src/devices/printer.py:1082-1092 | once the write a dead worker left behind is done, its callback is due and brings the count to 0 |
| PrinterProgress.WellEveryJobIsPrinted | src/devices/printer.py:898-1092 | spooler or not: from every reachable state with a worker at the queue, where nobody calls, cancels or disconnects and every operation goes well, every end has each queued job wholly on paper with the one row ok, and its caller, if one waited, told success |
| PrinterProgress.AGoodEndExists | src/devices/printer.py:898-1092 | such an end can be reached from every reachable state |
| PrinterProgress.WellACallIsPrinted | src/devices/printer.py:535-564 | so a call on a connected, idle device is printed and its caller told success |
| PrinterProgress.UnconnectedCallIsRefused | src/devices/printer.py:556-560 | a call without a handle gets a failed row and an error at once, and in no continuation is a byte of it printed |
| PrinterProgress.QueryRefusesExactly | src/devices/printer.py:924-940 | over a run of query, answer and worker: the job is refused with one failed row exactly when the query found the printer unfit, and rendered otherwise, also when the query itself broke |
| PrinterProgress.WriteEndsExactly | src/devices/printer.py:1015-1081 | a write that goes well leaves the row ok, the paper whole and the caller told success, one that breaks other than by an OSError the row failed; the worker is back at the queue with the same handle |
| PrinterProgress.LostConnectionExactly | src/devices/printer.py:1023-1049 | a write that breaks by an OSError leaves no worker and no handle, one close queued, its job failed, every queued job with a cancelled row, all others untouched |
| PrinterProgress.CancelledWriteEndsExactly | src/devices/printer.py:1050-1092 | a worker cancelled while its write is still to come: row and answer say what the write came to |
| PrinterProgress.OpeningEndsExactly | src/devices/printer.py:348-378 | an opening that goes well installs the new handle with a worker at the queue, one that breaks installs nothing |
| PrinterProgress.ProbeAsksExactly | src/devices/printer.py:263-300 | a probe is sent exactly when a handle is installed, no job is held and no orphaned write keeps the device busy |
| PrinterInvariant.DrainedEffect | src/devices/printer.py:490-514 | draining gives each queued job, once, a cancelled row and an error for a waiting caller, and leaves all others alone |
| PrinterDevice.Device.Perform | src/devices/printer.py:116-1092 | the class performs any enabled step of the machine exactly and keeps the invariant |
| PrinterDevice.Device.FailQueuedJobs | src/devices/printer.py:490-514 | the loop empties the queue and settles exactly what was in it |
| PrinterDevice.Device.CountPending | src/devices/printer.py:518-533 | the count is that of the queue, if the worker lives, plus the job in flight |
| PrinterDevice.Device.Enqueue | src/devices/printer.py:535-564 | refused with a failed row when not connected, else queued with its caller waiting; the invariant is kept through Perform |
| PrinterDevice.Device.Connect | src/devices/printer.py:348-362 | opens only when not retired, nothing installed and no earlier opening still hangs |
| PrinterDevice.Device.ConnectResumes | src/devices/printer.py:362-378 | installs the handle and starts a worker only if none runs |
| PrinterDevice.Device.ConnectGivesUp | src/devices/printer.py:364-375 | the opening is left to a late close |
| PrinterDevice.Device.CloseLateHandle | src/devices/printer.py:409-432 | a late handle is closed by its own executor, or by a stray thread when that takes no more work |
| PrinterDevice.Device.DisconnectLocked | src/devices/printer.py:447-455 | a live worker is cancelled and awaited; otherwise the rest follows at once |
| PrinterDevice.Device.GiveUpHandle | src/devices/printer.py:455-480 | the queue is drained, the handle taken out, its close put behind whatever the device thread still has |
| PrinterDevice.Device.WorkerTakes | src/devices/printer.py:898-948 | the first queued job is taken with the installed handle; a status query is sent unless the printer is a spooler |
| PrinterDevice.Device.WorkerRendered | src/devices/printer.py:971-1016 | only a job that rendered soundly gets its write submitted |
| PrinterDevice.Device.WorkerWrote | src/devices/printer.py:1015-1081 | success, lost connection and any other failure each end the job as they should |
| PrinterDevice.Device.WorkerLosesConnection | src/devices/printer.py:1023-1049 | the job fails, the handle is given up to a queued close, the queue drained, the worker gone |
| PrinterDevice.Device.WorkerCancelled | src/devices/printer.py:1050-1092 | before a write: cancelled at once; during one: row and answer left to the write; after one: row left to it, caller told cancelled |
| PrinterDevice.Device.WriteCallbacks | src/devices/printer.py:383-407 | the ended write writes the row, answers a caller that was left to it and lowers the in-flight flag |
| PrinterDevice.Device.RunOperation | src/devices/printer.py:255-261 | the device thread runs the first operation of its list and only that |
| TextShim.ShimRefinesMeaning | src/devices/printer.py:726-827 | what went out, followed by what is still held back, is the meaning of the calls, in which consecutive texts are one text and lines and images keep their order |
| TextShim.MeaningSeesOnlyRuns | src/devices/printer.py:726-827 | the meaning of a job depends only on its runs: the joined text before each set, cut and image, and the joined text after the last of them |
| TextShim.DivisionMattersExactly | src/devices/printer.py:726-827 | all jobs with the same runs put out the same lines, images and cuts if and only if no line ends within the text after the last set, cut or image, or that text ends a line |
| TextShim.JobOfRuns | src/devices/printer.py:726-827 | a job puts out all its runs but the last, and of that as much as some call ended with a line |
| TextShim.JobMeansItsCalls | src/devices/printer.py:726-827 | a job puts out its whole meaning if and only if its last text ended a line or was forced out by set, cut or an image |
| TextShim.HeldBackExactly | src/devices/printer.py:770-777 | something is held back at the end exactly when the last text after the last forcing call does not end a line |
| TextShim.UnfinishedTextDependsOnItsDivision | src/devices/printer.py:728-777 | a concrete text that prints nothing in one call and its first line in two |
| TextLines.LinesGoOutInTheStyleInForce | src/devices/printer.py:728-793 | what has gone out stays, and every line a call puts out has, keyword by keyword, what the last earlier set that gave it said; plain, left and of single size where none did |
| TextLines.LinesGiveTheTextBack | src/devices/printer.py:728-768 | the lines of a text, written one below the other, are the text with an end for its last line; none has a line end within |
| TextLines.NoLetterIsLost | src/devices/printer.py:728-802 | the letters put out and then those held back are the letters said, in order |
| TextLines.MarksArrive | src/devices/printer.py:795-866 | every image and, but on a label printer, every cut goes out once, in order |
| PrinterRender.ActKeeps | src/devices/printer.py:898-1092 | every step of the device, every call of the job being rendered and every call that raises keeps: only the handle being rendered on has a shim that is not fresh; the shim and what it has put out are those of a fresh one given this job's calls; every submitted write carries its own job's output |
| PrinterRender.NextJobStartsClean | src/devices/printer.py:482-488 | in any run, whenever no job is being rendered, whatever became of the earlier ones (sound, failed, refused, cancelled), every handle's shim is fresh and no page is kept |
| PrinterRender.RenderingStartsFresh | src/devices/printer.py:968-998 | whichever step begins a rendering, it begins on the installed handle with nothing collected |
| PrinterRender.EveryWriteIsItsOwnJob | src/devices/printer.py:971-1017 | every write in the device thread's list carries exactly what the calls of its own job put out on a fresh device |
| PrinterRender.WrittenIsWhatTheJobCalled | src/devices/printer.py:971-1017 | through any calls from outside and any steps of the device thread, the write submitted at the end of a rendering carries what the calls made during it put out on a fresh device |
| PrinterRender.EveryRunCanBeActed | src/devices/printer.py:898-1092 | rendering takes no run of the device away |
| PrinterRender.PrintableReachable | src/devices/printer.py:898-1092 | rendering adds no state of the device: all that is proved of it holds |
| PrinterDesk.RenderDesk.ResetRenderState | src/devices/printer.py:482-488 | the pages are emptied and the shim of the handle installed now becomes fresh; nothing else changes |
| PrinterDesk.RenderDesk.RenderCall | src/devices/printer.py:728-866 | a call works on the closure of the handle the job renders on and leaves every other alone |
| PrinterDesk.RenderDesk.Perform | src/devices/printer.py:898-1092 | device and rendering together perform any act exactly and keep the invariant |
| TextShim.Shim.FlushText | src/devices/printer.py:728-768 | the loop renders each line of the joined buffer in the current style and empties it |
| TextShim.Shim.Text | src/devices/printer.py:770-777 | text is kept until a call that ends a line |
| TextShim.Shim.Set | src/devices/printer.py:779-793 | held text goes out in the old style before the style changes |
| TextShim.Shim.CutOff | src/devices/printer.py:795-802 | a cut forces held text out first and does nothing else on a label printer |
| TextShim.Shim.EmitImage | src/devices/printer.py:847-866 | an image takes its place behind the text that was held back |
| TextShim.Shim.ResetState | src/devices/printer.py:804-822 | an unfinished line is thrown away and the style is the default again |
| TextShim.LinesSplit | src/devices/printer.py:728-741 | text can be rendered in two goes wherever a line ends |
| TsplPages.GroupPages | src/devices/printer.py:202-210 | the loop computes the grouping and its groups put together are the pages |
| TsplPages.GroupsLoseNothing | src/devices/printer.py:202-210 | every page is in exactly one group, in order |
| TsplPages.GroupsFit | src/devices/printer.py:202-210 | each group is non-empty and at most 2540 dots high or a single page |
| TsplPages.GroupingIsOptimal | src/devices/printer.py:202-210 | no contiguous partition into groups that fit uses fewer groups |
| TsplBytes.ReceiptIsPrintedOnce | src/devices/printer.py:172-230 | the bytes of a receipt, read line by line, are one job for each group of pages: SIZE with the paper width and the least millimetres of eight dots that cover the canvas, GAP 0, DIRECTION 1, CLS, the picture at 0,0 in mode 0, and a PRINT that asks for one copy |
| TsplBytes.PixelsAt | src/services/tspl_render.py:51-59 | the picture goes over the wire as it is, byte for byte, row after row |
| Numerals.DecimalAt | src/services/tspl_render.py:64-73 | numbers are printed in decimal, each digit in its place, with no nought in front |
| TsplRoundTrip.FinalizeTspl | src/devices/printer.py:172-230 | the bytes written are one job per group on the widest page, and none for no pages or no printer |
| TsplRoundTrip.JobTurns | src/services/tspl_render.py:33-73 | the interpreter consumes one encoded job, whatever bytes its picture has, and emits exactly that picture as a label; the label's size is one a double can hold, the copies are few enough to be printed at all |
| TsplRoundTrip.ReceiptArrives | src/devices/printer.py:172-230 | for all page images Pillow can make and any chunking of the bytes, the labels put together are the pages in order, white-padded to the widest; nothing stays buffered, nothing kills the connection |
| TsplStream.ChunkingInvariance | emulator/tspl_printer.py:92-191 | for all states and byte strings, feeding in two pieces gives the same state and labels as in one; the same replies if and only if it is not so that the bytes together kill the connection while the first piece alone does not and holds a query |
| TsplQueries.QueriesAreAnswered | emulator/tspl_printer.py:92-140 | status queries between the jobs, under any chunking: one byte 18 for each, nothing else, and one label for each job, in order |
| TsplQueries.NothingElseIsAnswered | emulator/tspl_printer.py:110-119 | whatever bytes come, from whatever state, only bytes 18 are ever answered |
| TsplCommands.LineMeans | emulator/tspl_printer.py:177-204 | only lines beginning with SIZE or PRINT, in either case, are more than skipped; PRINT hands over the picture before it, if there is one |
| TsplCommands.HeaderFields | emulator/tspl_printer.py:150-175 | of the five fields up to the fifth comma the third and fourth are the sizes; without two numbers there the header is skipped |
| TsplCommands.StrayBytes | emulator/tspl_printer.py:110-124 | line ends between commands and a DLE that begins no query are skipped, one byte each |
| TsplStream.TurnKillsExactly | emulator/tspl_printer.py:92-214 | a turn kills the connection exactly when it takes a payload of sizes no picture can have, reads a SIZE line that holds an infinite number, reads a PRINT line with too long a count, or a PRINT meets a pending picture without area |
| TsplStream.DiesExactly | emulator/tspl_printer.py:92-214 | whether a delivery kills the connection, and whether it is answered, is what a scan of the bytes says that knows neither pictures nor labels |
| TsplStream.PositiveSizesLive | emulator/tspl_printer.py:92-214 | bytes in which every header with numbers has positive, possible ones, and no SIZE or PRINT line has a number that raises, kill no connection |
| TsplStream.PositiveSizesInvariance | emulator/tspl_printer.py:92-191 | for all such bytes two deliveries give the same state, labels and replies as one |
| TsplStream.AnyChunks | emulator/tspl_printer.py:92-140 | any number of deliveries give the state of one, always, and the replies of one where the bytes do not kill the connection |
| TsplStream.AnsweredExactly | emulator/tspl_printer.py:92-140 | a series of deliveries is answered exactly when some first ones of it, put together, hold a query and leave the connection alive |
| TsplStream.AnyChunksExactly | emulator/tspl_printer.py:92-140 | the replies of any series of deliveries are those of one if and only if the bytes do not kill the connection or no first deliveries were answered before they did |
| TsplStream.LostReply | emulator/tspl_printer.py:92-191 | a concrete stream whose single delivery loses the reply its division in two would give |
| TsplStream.LostReplyBySize | emulator/tspl_printer.py:177-214 | the same with `SIZE inf,1` and no header at all: the OverflowError is not caught |
| TsplStream.LargeIsInfinite | emulator/tspl_printer.py:207-214 | `1e999` is read as infinite like `inf` |
| TsplStream.NoHeaderBeforeIt | emulator/tspl_printer.py:177-214 | that stream satisfies every condition on headers, so they alone do not keep a connection alive |
| TsplPrinter.TsplInterpreter.Feed | emulator/tspl_printer.py:92-140 | the loop over the mutable buffer computes the specified state and replies |
| TsplPrinter.TsplInterpreter.StartHeader | emulator/tspl_printer.py:150-175 | a header is consumed to its fifth comma and its payload size set, or waited for |
| TsplPrinter.TsplInterpreter.TakeLine | emulator/tspl_printer.py:177-192 | SIZE and PRINT lines act or, where a number of theirs raises, end the connection; all others are ignored |
| TsplPrinter.TsplInterpreter.ParseSize | emulator/tspl_printer.py:207-214 | with exactly one comma and an infinite first number, or a finite one and an infinite second, the error is not caught; anything else odd is |
| TsplPrinter.TsplInterpreter.FinishLabel | emulator/tspl_printer.py:193-204 | a pending picture becomes one label; without one nothing happens |
| TsplPrinter.TsplInterpreter.Close | emulator/tspl_printer.py:142-146 | a picture that never got its PRINT becomes a label |
| Numerals.IntOfDecimal | src/services/tspl_render.py:64-72 | a number printed in decimal is read back as itself, up to the number of digits that are converted at all |
| Numerals.FloatOfDecimal | emulator/tspl_printer.py:207-214 | a printed whole number is read as finite below the point from which decimals round to infinity, and as infinite from there on |
| Numerals.DigitsAccepted | emulator/tspl_printer.py:164-169 | read as digits are exactly the texts of digits with single underscores between them |
| Numerals.SignsAreRead | emulator/tspl_printer.py:164-169 | one sign before them is read, and is no digit |
| BitmapRender.RenderParagraph | src/services/bitmap_render.py:168-173 | the loop stacks the rendered lines, each padded to the width, in order |
| Images.StackedAt | src/devices/printer.py:212-217 | byte by byte: below the rows of the pictures above it every row stands at the left edge, and the rest of its line is white |
| Images.StackedRows | src/devices/printer.py:210-217 | and there are no other rows |
| Images.WidestIsOne | src/devices/printer.py:189 | the width of the canvas is that of one of the pictures, and none is wider |
| EscPosStream.ChunkingInvariance | emulator/escpos_printer.py:207-243 | for all states and byte strings, feeding in two pieces gives the same receipts, replies and final state as in one |
| EscPosStream.AnyChunks | emulator/escpos_printer.py:207-243 | any number of deliveries equal one |
| EscPosStream.EncodableExactly | src/services/bitmap_render.py:176-199 | an encoded picture is decoded as that picture if and only if its row bytes and height fit 16 bits |
| EscPosStream.CropsNothing | emulator/escpos_printer.py:459-464 | whatever bytes arrive, no raster is ever wider than its receipt |
| EscPosStream.Render | emulator/escpos_printer.py:437-457 | a receipt is its strips, one below the other, between two margins |
| EscPosStream.ReceiptsArrive | emulator/escpos_printer.py:422-464 | for all lists of receipts of encodable pictures, with or without a line feed after each, and any chunking: as many receipts, each the stack of its pictures padded to its widest and the feed before its cut; no reply, nothing buffered |
| EscPosQueries.QueriesAreAnswered | emulator/escpos_printer.py:207-243 | status queries before, between and inside receipts, under any chunking: each is answered with one byte 18, nothing else is, and the receipts are those of the stream without them |
| EscPosQueries.EncodedBytes | src/services/bitmap_render.py:176-199 | a picture on the wire is GS v 0, its sizes low byte first, and its bytes with every bit turned over |
| EscPosQueries.FeedIsWhite | emulator/escpos_printer.py:289-294 | paper fed before a cut is six white rows a line and at least one line |
| EscPosText.StyledLinesArrive | emulator/escpos_printer.py:261-343 | styled lines and a cut, under any chunking, come out as one receipt of those lines, each with its characters and the bold, alignment and sizes set for it |
| EscPosText.OnlyTrailingBlanksGo | emulator/escpos_printer.py:422-435 | of what was collected exactly the blank lines at the end are dropped |
| EscPosText.CodePageChosen | emulator/escpos_printer.py:284-288 | which code page each table number chooses; an unknown one changes nothing |
| EscPosCommands.SetupIsNotSeen | emulator/escpos_printer.py:253-397 | any number of setup, drawer, real-time and unknown commands and fillers, each of its own length, changes nothing of what is printed or answered |
| EscPosCommands.PaperIsFed | emulator/escpos_printer.py:258-299 | ESC J feeds its dots, ESC d six dots a line and at least one line behind the pending text, ESC @ takes the style back |
| EscPosCommands.BlanksAndLines | emulator/escpos_printer.py:207-243 | a tab is four blanks; a line feed ends the pending text, is a blank line without any, and nothing straight after a picture |
| EscPosPrinter.EscPosInterpreter.Feed | emulator/escpos_printer.py:207-243 | the loop over the mutable buffer computes the specified state and replies |
| EscPosPrinter.EscPosInterpreter.HandleEsc | emulator/escpos_printer.py:253-318 | each ESC command consumes its bytes and has its effect, or waits for them |
| EscPosPrinter.EscPosInterpreter.HandleGs | emulator/escpos_printer.py:320-358 | each GS command consumes its bytes and has its effect, or waits for them |
| EscPosPrinter.EscPosInterpreter.HandleRaster | emulator/escpos_printer.py:360-378 | a raster is taken only when all its bytes have arrived, inverted, and widens the receipt |
| EscPosPrinter.EscPosInterpreter.HandleDle | emulator/escpos_printer.py:382-397 | status queries are answered, other real-time commands skipped |
| EscPosPrinter.EscPosInterpreter.FlushTextLine | emulator/escpos_printer.py:403-420 | pending text becomes a line, or a blank line |
| EscPosPrinter.EscPosInterpreter.FinalizeReceipt | emulator/escpos_printer.py:422-435 | what was collected becomes one receipt of the observed width, and the interpreter starts over |
| TerminalIds.SerialIdsNameDevices | src/models/terminal.py:254-295 | ids made from serials are equal exactly for the same serial and port, do not depend on the host, and are disjoint from address-based ids |
| TerminalMerge.KeysAreTheUnion | src/devices/terminal_registry.py:157-235 | the survivor has the merchant bindings of all copies and no others |
| TerminalMerge.MerchantNicknamesComeFirstToLast | src/devices/terminal_registry.py:157-235 | with unique keys per losing copy, each nickname is the first that is not blank, winner first |
| TerminalMerge.NicknameAndDefaultComeFirstToLast | src/devices/terminal_registry.py:157-235 | so are the nickname and the default merchant of the registration; the default terminal is the winner's own or goes with that merchant |
| TerminalMerge.WinnerIsNeverOverwritten | src/devices/terminal_registry.py:157-235 | nothing the winner has its own value for is changed |
| TerminalMerge.MerchantsKeepTheirOrder | src/devices/terminal_registry.py:157-235 | the winner's bindings keep their places, new ones follow |
| TerminalMerge.SortedInOrder | src/devices/terminal_registry.py:106-134 | sorting a group by the winner-first key leaves no copy behind one it should precede |
| TerminalMerge.SortedKeepsCopies | src/devices/terminal_registry.py:410-412 | and keeps exactly the copies of the group |
| TerminalResolve.LoadLosesNoId | src/devices/terminal_registry.py:340-483 | after the load pass every stored key and every non-empty remembered id resolves in one hop, and is still written down |
| TerminalResolve.LoadKeepsTheDevice | src/devices/terminal_registry.py:354-594 | when no id is claimed by two devices, whatever an id resolves to has the serial and port of its claimant |
| TerminalResolve.NothingStaysUnderItsLegacyId | src/devices/terminal_registry.py:390-472 | no registration is left under its address-based id, and every key is its registration's own id |
| TerminalResolve.LoadIsIdempotent | src/devices/terminal_registry.py:303-483 | saving after the pass and loading again moves nothing and yields the same registrations in the same order |
| TerminalResolve.RestartLosesNoId | src/devices/terminal_registry.py:303-483 | an id the old file named still resolves after the restart that follows |
| TerminalResolve.AddressGoesOnAnswering | src/devices/terminal_registry.py:390-409 | a device stored under its own id answers to the id made of its stored address as well |
| TerminalResolve.CollisionsAreSettledTheSameWay | src/devices/terminal_registry.py:556-584 | an id two live registrations claim resolves to the lower of their ids, whichever claims first |
| TerminalSurvivor.SurvivorIsTheMerge | src/devices/terminal_registry.py:390-472 | over the whole pass each group ends as the merge of its copies, in winner-then-losers order, under the id computed today |
| TerminalSurvivor.MergeLosesNothing | src/devices/terminal_registry.py:157-235 | in the loaded registry the survivor's keys, nicknames, default merchant and kind are those of the copies, first to last |
| TerminalSurvivor.SurvivorTakesTheLatestAddress | src/devices/terminal_registry.py:485-516 | the survivor has the address of the copy standing last in the file, if that has one |
| TerminalSurvivor.WinnerIsFirst | src/devices/terminal_registry.py:106-134 | without an incumbent, no copy should precede the one that keeps the id |
| TerminalChoice.TheCopiesInTheirOrder | src/devices/terminal_registry.py:106-134 | over load, in the copies' own fields: of the copies of a device each is preferred to every later one (a nickname; then more named bindings; then more bindings; then a default merchant; then the later place), and kind, default terminal, nickname and default merchant of the survivor come from them in that order, the registration already under its id first |
| TerminalChoice.ReadFileInOrder | src/devices/terminal_registry.py:303-338 | the places are those of the file |
| TerminalChoice.SurvivorDescriptor | src/devices/terminal_registry.py:485-516 | the survivor's descriptor is the first copy's under the device's own id, with address and caption of the copy standing last, where that has another address |
| TerminalRuns.RegisterFallsOnItself | src/devices/terminal_registry.py:711-764 | the new id is the one asked for or the one it resolves to; if it is in use it is in use by that very registration |
| TerminalRuns.RegisterOverwritesNoOther | src/devices/terminal_registry.py:711-764 | every other registration stays exactly as it was |
| TerminalEffects.RegisteredFields | src/devices/terminal_registry.py:711-764 | the descriptor is the discovered one or else the stored one, kind, nickname and defaults are the request's, without a merchant list the stored one stays, and the id it was found under is remembered |
| TerminalEffects.UnknownIsNotRegistered | src/devices/terminal_registry.py:711-764 | an id neither discovered nor known changes nothing |
| TerminalEffects.ReplacedFields | src/devices/terminal_registry.py:766-774 | replacing a merchant list changes that list alone |
| TerminalEffects.MergedFields | src/devices/terminal_registry.py:776-820 | refreshing one changes that list alone, to the bank's entries with the stored nicknames |
| TerminalEffects.LastDiscovered | src/devices/terminal_registry.py:632-635 | of several descriptors of one id the last counts |
| TerminalEffects.LastNicknameStored | src/devices/terminal_registry.py:776-820 | the nickname put back into a refreshed list is the last one stored for the binding |
| TerminalEffects.UnregisteredIsGone | src/devices/terminal_registry.py:822-830 | the registration is gone with every id that led to it, and all others lead where they did |
| TerminalRuns.CallKeepsValid | src/devices/terminal_registry.py:632-832 | every call keeps each key its registration's own id |
| TerminalRuns.RunKeepsAnswers | src/devices/terminal_registry.py:586-832 | over any run an id that resolves goes on resolving to the same registration or the one that took its place, until it is unregistered |
| TerminalRuns.RunKeepsNames | src/devices/terminal_registry.py:711-832 | over any run every id a registration names is named by its heir |
| TerminalRuns.RestartAfterARun | src/devices/terminal_registry.py:303-832 | start, any run, restart: an id a surviving registration named still resolves |
| TerminalRuns.RefreshedEntry | src/devices/terminal_registry.py:776-820 | the refreshed merchant list is the bank's, entry for entry, with the stored nickname where there is one |
| TerminalRuns.NicknamesStick | src/devices/terminal_registry.py:776-820 | a nickname survives any number of refreshes as long as the bank lists the binding |
| TerminalRegistry.AbsorbMerchants | src/devices/terminal_registry.py:184-206 | the loop with its by-key dictionary computes the merged list |
| TerminalRegistry.AbsorbLosing | src/devices/terminal_registry.py:157-235 | the statements compute the merge of two copies |
| TerminalRegistry.NicknameIndex | src/devices/terminal_registry.py:803-809 | the dictionary holds, for each key, the last non-empty nickname |
| TerminalRegistry.TerminalRegistry.ClaimLegacyId | src/devices/terminal_registry.py:556-584 | a pointer to a live registration is settled by the lower id, any other is overwritten |
| TerminalRegistry.TerminalRegistry.IndexStoredKnownIds | src/devices/terminal_registry.py:340-352 | the nested loops compute the aliases from the remembered ids |
| TerminalRegistry.TerminalRegistry.IndexLegacyNetworkIds | src/devices/terminal_registry.py:354-483 | the pass moves every group as specified and writes the file exactly when something moved or a rewrite was asked for |
| TerminalRegistry.TerminalRegistry.LoadFile | src/devices/terminal_registry.py:303-338 | loading yields the specified registry |
| TerminalRegistry.TerminalRegistry.RegisterTerminal | src/devices/terminal_registry.py:711-764 | register does exactly the specified step, saves, and raises only when the id is unknown and undiscovered |
| TerminalRegistry.TerminalRegistry.ReplaceMerchants | src/devices/terminal_registry.py:766-774 | the list is stored and saved when the id resolves, and nothing else changes |
| TerminalRegistry.TerminalRegistry.RefreshMerchants | src/devices/terminal_registry.py:776-820 | the merged list is answered, and stored only when the id resolves |
| TerminalRegistry.TerminalRegistry.UnregisterTerminal | src/devices/terminal_registry.py:822-830 | the registration and the aliases to it go, nothing else |
| TerminalSweep.PassIsBounded | src/devices/scan.py:680-706 | a pass on a pool of workers, jobs taken in order by whoever is free, ends within ceil(n / workers) times its patience |
| TerminalSweep.BatchesRoundsUp | src/devices/scan.py:808 | the number of rounds is the source's rounded-up quotient by 256 |
| TerminalSweep.AllowedIsBatches | src/devices/scan.py:808-810 | what the rounds may take is their number times the patience |
| TerminalSweep.SweepOpenPairs | src/devices/scan.py:680-706 | every pair is in exactly one of answered and silent, and the pass keeps its bound |
| TerminalDiscovery.SlowPassLeavesTheReserve | src/devices/scan.py:799-810 | the slow pass over n silent addresses ends with at least the probe reserve left |
| TerminalReach.SecondPassExactly | src/devices/scan.py:803-852 | when the second pass runs: some address silent, the slow timeout a second or more above the fast one and, given a budget, a second more than the fast timeout for each round of 256 leaving nine seconds of it; its patience is the longest that slow timeout and budget allow |
| TerminalReach.CutShortExactly | src/devices/scan.py:811-835 | the passes are reported as cut short exactly when a second pass was due and not run with its whole patience |
| TerminalReach.EveryPortOfEveryHost | src/devices/scan.py:796 | every port of every host is tried, host by host |
| TerminalReach.ThisMachineToo | src/devices/scan.py:779-788 | 127.0.0.1 is tried, first unless it is among the addresses anyway |
| TerminalReach.ProbedExactly | src/devices/scan.py:893-898 | an open port is probed with exactly the adapters of that port |
| TerminalReach.ProbeOutcome | src/devices/scan.py:893-936 | a probe is left out exactly when no more than its timeout is left, given up exactly past nine seconds or the deadline, heard out otherwise, and never repeated |
| TerminalReach.KeptInOrder | src/devices/scan.py:585-615 | what is kept keeps its order |
| TerminalDiscovery.ProbesKeepTheDeadline | src/devices/scan.py:887-955 | the probes end by the deadline or where they began; every distinct target was run, skipped or cut off, once |
| TerminalDiscovery.CutOffOnlyAtTheCeiling | src/devices/scan.py:909-940 | a probe is cut off only past its ceiling, and one that answers in time within the budget is reported |
| TerminalDiscovery.ReachedExactly | src/devices/scan.py:787-852 | an address is reached exactly when it answers the fast pass, or is silent then and answers a slow pass that ran |
| TerminalDiscovery.OnlyRealTwinsAreDropped | src/devices/scan.py:585-615 | a descriptor is dropped exactly when it is on the loopback and the same serial and port was found on the network, and that one is kept |
| TerminalDiscovery.SweepTwice | src/devices/scan.py:787-852 | both passes with their report; with a budget they end with the fast pass or before the reserve |
| TerminalDiscovery.DiscoverNetworkTerminals | src/devices/scan.py:709-957 | the whole call ends by the deadline or with its fast pass, counts every distinct probe once, and says cut short exactly when something was |
| TerminalDiscovery.WithoutLoopbackTwins | src/devices/scan.py:585-615 | the two loops compute the kept descriptors |
| UplinkLedger.EveryLineIsInOnePlace | src/services/log_uplink.py:57-109 | after any interleaving of the loop's thread and any others every line handed over is in exactly one of delivered, in flight, buffered, in a thread's hand or evicted, once; the buffer keeps its bound |
| UplinkLedger.AccountedExactlyOnTime | src/services/log_uplink.py:74-132 | over any interleaving, reads and writes of the counter being steps of their own: the refusals are those counted, about to be counted, announced or lost with a notice, before the first step and after each, if and only if every write is on time by the schedule alone |
| UplinkLedger.AChangeThatDoesNotShow | src/services/log_uplink.py:111-132 | a concrete run in which the counter is set to nothing and put back between a thread's read and its write, and nothing is lost |
| UplinkLedger.OneAtATimeLosesNoRefusal | src/services/log_uplink.py:74-132 | where nobody counts while another counts or announces, every refusal is accounted for throughout |
| UplinkLedger.ARefusalForgotten | src/services/log_uplink.py:111-121 | a concrete run in which a refusal counted between the flush's read and its reset is never announced |
| UplinkLedger.ARefusalCountedTwice | src/services/log_uplink.py:74-121 | a concrete run in which a thread's late write brings an announced refusal back |
| UplinkLedger.OnlyAFullBufferEvicts | src/services/log_uplink.py:48-54 | a line is thrown out only by a push onto a full buffer |
| UplinkOrder.TheOldestMakesRoom | src/services/log_uplink.py:48-91 | a line goes to the end of the buffer; a full one gives up its oldest line and no other, one without room the line itself |
| UplinkOrder.TheFlushTakesTheOldest | src/services/log_uplink.py:93-109 | a flush takes the oldest line; refused, it stands first again, a full buffer giving up its newest |
| UplinkOrder.OthersLeaveTheBuffer | src/services/log_uplink.py:48-132 | no other step touches the buffer |
| UplinkOrder.LinesWaitInOrder | src/services/log_uplink.py:36-43 | over any run in which no line comes back the lines wait in the order they were handed over, the one a flush holds first |
| UplinkOrder.AnOutageKeepsTheNewest | src/services/log_uplink.py:36-54 | while the connection is down the buffer comes to hold the newest lines that fit, and exactly the others are given up |
| UplinkLedger.OneFlushDeliversAll | src/services/log_uplink.py:93-109 | on a connection that holds one flush and its sends deliver every line that was not evicted |
| UplinkHandler.FlushIsARun | src/services/log_uplink.py:93-132 | an uninterrupted flush, on the loop's thread or another, its notice arriving or not, is a run of the ledger |
| UplinkHandler.EmitIsARun | src/services/log_uplink.py:57-82 | an uninterrupted emit from any thread is a run of the ledger |
| UplinkOrder.EmitOutcome | src/services/log_uplink.py:57-82 | a line is on its way exactly when connected with a loop, counted as refused exactly when connected without, and waits last in the buffer when not on its way |
| UplinkOrder.FlushOutcome | src/services/log_uplink.py:93-132 | what a flush comes to in each of its cases, line by line and count by count |
| UplinkHandler.Handler.Emit | src/services/log_uplink.py:57-82 | a line is handed over, kept for later and counted, or buffered |
| UplinkHandler.Handler.HandOverBuffer | src/services/log_uplink.py:93-109 | the loop ends, having handed everything over, oldest line first, or changed nothing |
| UplinkHandler.Handler.SayDeferred | src/services/log_uplink.py:111-132 | the count is set to nothing and announced; a client that refuses the notice or does not get it through loses it |
| UplinkHandler.Handler.FlushBuffer | src/services/log_uplink.py:93-132 | a flush hands everything over and announces the deferred lines, or changes nothing |
| UplinkHandler.Handler.RequeuePayload | src/services/log_uplink.py:84-91 | a line whose send failed goes back to the end of the buffer |
| UplinkHandler.Handler.ClientEmit | src/services/log_uplink.py:205-290 | a line is taken exactly when the client is connected and the call is on the loop's own thread or the uplink has a loop |
| FiscalDocument.Round5IsNearest | src/services/fiscal_it.py:233-235 | cash rounding gives the nearest multiple of 5 cents, uniquely |
| FiscalDocument.AcceptedExactly | src/services/fiscal_it.py:243-318 | a document is accepted if and only if it has one tender, or all parts are positive and known, they make up the items to a cent, and each cash part is a multiple of 5 cents |
| FiscalDocument.ValidateTenders | src/services/fiscal_it.py:243-318 | the loops report the first applicable of the four errors, in the source's order |
| FiscalDocument.Build | src/services/fiscal_it.py:390-489 | the tree built line by line is the specified one, or the refusal |
| FiscalRoundTrip.BuiltIsRead | emulator/fiscal_epos.py:257-311 | what is built and wrapped is read back as that sale: all items in order, one payment a tender, the sum, sale or refund |
| FiscalRoundTrip.ItemsReadBack | emulator/fiscal_epos.py:283-291 | each item line reads back the item's name, quantity, price to the cent and department |
| FiscalRoundTrip.PaymentsReadBack | src/services/fiscal_it.py:455-486 | each payment line reads back its kind, its Italian label and, to the cent, its amount |
| FiscalRoundTrip.SettledAmounts | src/services/fiscal_it.py:455-470 | a split is settled with the till's own amounts, a single cash payment with the nearest multiple of 5 cents |
| FiscalTender.TenderOnTree | src/services/fiscal_it.py:356-372 | on the built tree, in words and numbers: a kind of the till's map gets its number; else card, carta, electronic and pos, in any case and with blanks around, get "2" with their exact amount, and every other kind "0"; each with its label and place |
| FiscalTender.AmountOnTree | src/services/fiscal_it.py:459-485 | what settles under number 0 alone is the nearest multiple of 5 cents, everything else exact |
| FiscalTender.LabelOnTree | src/services/fiscal_it.py:459-485 | the Italian label of each number |
| FiscalTender.ItemOnTree | src/services/fiscal_it.py:429-447 | each item stands on the tree in its place with its own department or that of its rate |
| FiscalTender.RefundOnTree | src/services/fiscal_it.py:413-424 | a refund says once what it refers to, a sale does not |
| FiscalTender.LinesInOrder | src/services/fiscal_it.py:411-487 | refund note, beginning, items, tenders, end, in this order, each for operator "1" |
| FiscalTender.RefusedExactly | src/services/fiscal_it.py:243-318 | in the till's words, which of the four errors a document is refused with, and when with none |
| Texts.CentsRoundTrip | src/services/fiscal_it.py:381-382 | an amount printed with two decimals is read back to the cent |
| Texts.CentsAreWritten | src/services/fiscal_it.py:381-382 | an amount is written as its sign, the whole part, a point and two digits |
| Texts.DigitAt | src/services/fiscal_it.py:381-382 | in decimal, each digit in its place |
| FiscalJournal.MoneyIsConserved | emulator/fiscal_epos.py:149-183 | over any run of commands, for each payment type the closures plus the open day say exactly what was sold less what was refunded |
| FiscalJournal.KeepMakesNoDifference | emulator/fiscal_epos.py:81-102 | how many documents the journal keeps changes no event and no total |
| FiscalJournal.NoSaleBeforeTheFirstZ | emulator/fiscal_epos.py:109-121 | where the first closure is required no sale is accepted or counted before it |
| FiscalJournal.EverySaleAfterTheFirstZ | emulator/fiscal_epos.py:109-147 | otherwise, and ever after it, every sale is accepted |
| FiscalJournal.ReceiptsCountTheDay | emulator/fiscal_epos.py:122-172 | the receipt number is the count of sales accepted since the last closure |
| FiscalPrinter.TheClosuresSayWhatTheTillTook | emulator/fiscal_epos.py:257-366 | sales, refunds, closures, readings and copies in any order, through the XML: for every kind of tender the closures and the open day say exactly what the till settled; on a printer that waits for its first closure, what it settled after that |
| FiscalDay.TheDayInWords | emulator/fiscal_epos.py:257-366 | the same with what was owed said in the till's words: under each number, for any requests in any order, the closures and the open day hold the exact amounts of its tenders, cash alone at the nearest 5 cents, refunds taken off |
| FiscalDay.NewestIsCopied | emulator/fiscal_epos.py:191-204 | a copy is made of the newest document with that number among those kept |
| FiscalDay.NothingIsCopied | emulator/fiscal_epos.py:191-210 | and of nothing where none of those kept has that number |
| FiscalDay.NewestAreKept | emulator/fiscal_epos.py:91-96 | a journal that grew too long loses its oldest entry |
| FiscalDay.SaleIsWrittenDown | emulator/fiscal_epos.py:109-147 | what a sale writes down and is answered, before the first closure and after |
| FiscalDay.ClosureIsWrittenDown | emulator/fiscal_epos.py:166-183 | a closure writes down the totals of the day and starts day and numbers over |
| FiscalDay.ReadingIsWrittenDown | emulator/fiscal_epos.py:185-189 | a reading writes down its number and changes no total |
| FiscalDay.OthersChangeNothing | emulator/fiscal_epos.py:345-366 | a status query and an unknown body change nothing, the latter answered unknown_command |
| FiscalPrinter.SentIsRead | emulator/fiscal_epos.py:257-311 | the printer reads every body the till sends as what it meant |
| FiscalPrinter.FiscalState.Accrue | emulator/fiscal_epos.py:149-164 | the loop adds each row, with its sign, to the day of its payment type |
| FiscalPrinter.FiscalState.RecordSale | emulator/fiscal_epos.py:109-147 | a blocked sale is only noted and answered 17; any other is numbered, noted and counted |
| FiscalPrinter.FiscalState.RunZ | emulator/fiscal_epos.py:166-183 | a closure carries the day away and resets day and receipt numbers |
| FiscalPrinter.FiscalState.FindOriginal | emulator/fiscal_epos.py:195-204 | the newest issued document with that number among those kept, if any |
| FiscalPrinter.FiscalState.Handle | emulator/fiscal_epos.py:336-366 | each body does what its command says and is answered accordingly: 17 for a blocked sale, unknown_command for what it does not know |

## Left out

- PrinterMachine.Enabled: the caller of `connect()` is not itself cancelled while it waits; that path installs no late close in the source, so a handle opened after it would have no owner. Nor is the task that awaits `disconnect()`.
- PrinterMachine.RunHead: an operation of the device thread always comes back in the end; a call that hangs for ever holds its device's thread, and what is said of nothing being left to do is then never reached.
- PrinterMachine.ProbeCall: whether the probe's answer is awaited or given up is not modelled, and the network printer's probe, which opens a connection of its own, is left out.
- PrinterMachine.Take: taking the next job is a step of its own although the source goes on without an await when the queue is not empty; the model allows more interleavings than there are.
- PrinterDevice.Device: the journal, the callers' futures and the handles are kept as records beside the source's fields; `Perform` stands for the event loop.
- PrinterRender.Called: a job that writes bytes of its own to the handle, the choice of render mode, code pages and the spooler's document are left out; what a job collects is its lines, images and cuts, before they become bytes.
- PrinterRender.Spoilt: after a call that raised the job makes no further call; a job that caught the exception and went on is not modelled.
- BitmapRender.RenderParagraph: splitting a text into lines that fit and drawing them is left out; the loop is given the rendered lines.
- The drawing of glyphs, fonts, QR codes and receipt layout: glyphs are a function of text and style where a receipt is rendered.
- TsplPrinter.Finalize: pictures are assumed to be handled as a current Pillow does, which accepts an empty picture and fails on saving one; an older one raises earlier.
- TsplPrinter.HandleLine: the size line is kept as text and the number of copies dropped, since the preview uses neither; of their numbers only whether they raise is modelled.
- Numerals.ReadFloat: decimals of more than a thousand million digits, which Python does not read, are left out.
- Numerals.IntValue: the limit of 4300 digits is the one Python 3.11 and later have unless it is changed.
- Images.Refused: Pillow makes no picture of more than 536870910 dots to the row, a quarter of the largest C int less one, nor of more rows than a C int counts; running out of memory below that is left out.
- UplinkLedger.State: `logging.Handler.handle` holds the handler's lock around `emit`, so no two threads hand over or count at once; the model lets them, and so has more interleavings than there are.
- EscPosPrinter.Effect: decoding text bytes through a code page is left out; text is the bytes with the style and code page they arrived under.
- EscPosStream.PrintOk: the cut of a receipt is `GS V` with any mode, with an optional `ESC d n` before it, which covers what python-escpos sends; python-escpos is not part of this model.
- Images.Image: widths are whole bytes, as every picture the renderers make for a printer is.
- TerminalIds.Id: the twelve-digit hash is taken to be injective in its parts, the joining of the parts by colons included.
- TerminalIds.Descriptor: a missing text and an empty one are the same, as they are for every test the registry makes; model, transport and serial port parameters are left out.
- TerminalResolve.LoadKeepsTheDevice: for an id that two devices claim only that it still resolves is proved; which of the two answers can differ between the migrating start and the next one.
- TerminalLoad.MoveGroups: groups are moved in any order that names each once; the source sorts them.
- TerminalRegistry.TerminalRegistry: registrations are values; a caller that goes on changing a registration it was handed is not modelled.
- TerminalRegistry.TerminalRegistry.Save: the encoding of the file, the temporary file, the backup and failed writes are left out; the file is a value that is replaced at once.
- TerminalRuns.RunKeepsAnswers: a restart in the middle of a run is covered for the ids a registration names, not for aliases that were only derived from an address since changed.
- TerminalDiscovery.DiscoverNetworkTerminals: only connects and probes take time; enumerating subnets, logging and the start of threads take none.
- TerminalDiscovery.Probe: a probe's target is its host, port and adapter, where the source joins the three into one text.
- UplinkLedger.Apply: a record whose message cannot be formatted is dropped by the handler before it is a line and is left out, as are the sends lost when the loop is stopped; the notice about deferred lines is no line of the ledger, only its count is followed.
- FiscalDocument.Document: amounts are whole cents; a tender or price with a fraction of a cent is left out, and so is the printed form of quantities.
- FiscalDocument.Read: an amount that is not written with two decimals makes a request unreadable here; the source reads more forms. XML is a tree: its text form and its errors are left out.
- FiscalDocument.Lower: letters outside the Latin alphabet are not changed; none of them becomes part of a literal tender name.
- FiscalJournal.After: dates, the answer's fields and the number of a copy of a document already dropped from the journal are left out.
- Alias answers, printer and terminal drivers, mDNS, USB and Bluetooth discovery, the supervision service, routes, dashboards and installers: input and output around the modelled parts.
