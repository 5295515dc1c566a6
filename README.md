# v8runner core, modelled in Dafny

v8runner runs JavaScript in a throw-away child process so that a script
that loops forever or allocates without bound cannot take its host down.
The parent (`ProcRunner`) writes one request to the child, waits for the
matching response or for the caller's deadline, and sorts the outcome into
a fixed set of errors. The child (`ReaderRunner`) decodes requests, runs
each one in a single persistent engine context and writes one response per
request. An admission pool (`ProcRunnerPool`) caps how many children exist
at once.

The Dafny project has one module per Go file:

- `Types` (`types.dfy`): the request and response messages.
- `Libs` (`libs.dfy`): the child's response constructors.
- `Engine` (`engine.dfy`): the embedded engine as an abstract value. A
  context state `C` has a start value, a `run` step that may change it and
  returns a value or an error, and a `stringify` step that may fail.
- `Runners` (`runner.dfy`): file-name normalisation, the option loop, the
  `Runner` class with its `closed` flag, and how a script run is classified.
- `Readers` (`reader_runner.dfy`): the child's dispatch loop. It is
  specified by the recursive function `Serve`, and the loop is proved
  against it. The loop is written as `Process` (create the runner, loop,
  close), `Loop` (the `for`), `Step` (one turn) and `Answer` (running one
  request).
- `Procs` (`procrunner.dfy`): the parent-side session. It has a `closed`
  flag with an idempotent close, a request counter, and `Classify`, the
  outcome chain of one call.
- `Pools` (`pool.dfy`): the bounded running count and the set of live
  runners.

What the model takes as parameters:

- Input stream: a sequence of decode outcomes (a request, end of stream,
  or a decode error). Running out of the sequence reads as end of stream.
- Output stream: a sequence that grows by appending. The function
  `writeFault` says which write fails.
- Engine: an abstract value (`Engine` above).
- Cancellation: a parameter. In the child it is `Some(detail)` when the
  caller's context won the race and the terminated engine reported
  `detail`. In the parent it is a flag.
- The parent's worker: its result (encode error, end of stream, other
  decode error, or a decoded response) is an `Exchange` parameter.
- Process start and kill: their error results are parameters. A kill is
  counted.

The Go counter `seq` is the field `seqNo`, because `seq` is a Dafny
keyword. It wraps around at 2^64 like the Go `uint64`.

Where the code's behaviour differs from what its comments and callers
suggest, the model follows the code, with one exception: the error
formatting at procrunner.go:144 (see "## Findings"). The points are these:

- `procrunner.go` has no background watcher. `closed` becomes
  true only through `close`, whether from `Close` or from a timeout. An
  end of stream while decoding reports `Killed` and leaves the session
  open.
- Only an end of stream while decoding counts as `Killed`. Encode errors,
  and decode errors other than end of stream, are returned unchanged
  (`Transport`).
- The pool refuses when `running >= max`, not only when `running == max`.
  So with a negative maximum every request is refused. `running <= max`
  is kept only when `max >= 0`.
- The child's `MaxHeapSizeOption.Apply` always returns nil. So the
  child's "failed to create runner" branch exists in `Process` but no input
  reaches it. `Process`'s contract therefore describes only the loop.

## Model

| member | source | states |
|---|---|---|
| `Libs.ErrResult` | pkg/runner/libs.go:9-15 | the response keeps the given id, has the error's message as `Error`, and has no `Result` |
| `Libs.NilResult` | pkg/runner/libs.go:17-21 | the response keeps the given id and has neither `Error` nor `Result` |
| `Libs.JsonResult` | pkg/runner/libs.go:23-32 | keeps the id and never sets both fields; a successful stringify gives `Result` = the text and no `Error`; a failed one gives exactly `ErrResult(id, thatError)` |
| `Runners.NormalizeFileName` | pkg/runner/runner.go:38 | the name always ends in ".js"; a name already ending in ".js" is unchanged; any other name gets ".js" appended |
| `Runners.NormalizeIdempotent` | pkg/runner/runner.go:38 | normalising twice gives the same name as normalising once |
| `Runners.ApplyHeapOption` | pkg/runner/runner.go:23-26 | the heap-size option never fails |
| `Runners.ApplyOptions` | pkg/runner/runner.go:39-44 | options are applied in order; with no failure, all are applied; otherwise the error is the first failing option's, every earlier option succeeded, and none after it was applied |
| `Runners.NewRunner` | pkg/runner/runner.go:36-52 | a runner exists exactly when no option failed; it is new, open, starts from the engine's fresh context and has the normalised file name; otherwise the first option error is returned and no runner is made |
| `Runners.EngineOutcome` | pkg/runner/runner.go:80-85 | an engine value passes through; an engine error becomes a script failure whose text is "failed to run script because: " followed by the engine's message |
| `Runners.Runner.constructor` | pkg/runner/runner.go:45-51 | a new runner is open, holds the given engine and file name, and starts in the engine's fresh context |
| `Runners.Runner.Close` | pkg/runner/runner.go:55-59 | afterwards the runner is closed |
| `Runners.Runner.RunScript` | pkg/runner/runner.go:61-70 | on a closed runner: "runner is closed", engine untouched; otherwise the runScript outcome |
| `Runners.Runner.runScript` | pkg/runner/runner.go:76-100 | if the engine finishes first, its result, with the context it leaves; on cancellation the runner is closed and the error is a timeout error ("timeout: failed to run script because: …") |
| `Readers.Stop.Error` | pkg/runner/reader_runner.go:48-56 | the loop returns nil exactly on a clean end of input; a decode error is returned as "failed to decode req: …"; a write error as is |
| `Readers.Reply` | pkg/runner/reader_runner.go:58-83 | the response echoes the request id and never has both fields; a script failure gives the script error whatever the response type; on success, "nil" gives neither field, "json" gives `JsonResult` of the value in the context after the run, and any other type gives "unknown response type: <type>" |
| `Readers.Serve` | pkg/runner/reader_runner.go:46-84 | the loop reads at most its input, writes at most one response per message read, and reads at least one message when any is left |
| `Readers.ServeStops` | pkg/runner/reader_runner.go:46-84 | every message before the last one read is a request; a clean stop means input ran out or an end of stream was read; a decode failure means the last message read was that decode error; a write failure means the last message was a request whose write failed; every response written went through a write that did not fail |
| `Readers.ServeAnswersInOrder` | pkg/runner/reader_runner.go:46-84 | one response per request read, in request order, one fewer when the last write failed; the i-th response is the reply to the i-th request in the context left by the requests before it |
| `Readers.ServeEchoesIds` | pkg/runner/reader_runner.go:58-83 | the i-th response carries the id of the i-th request and never has both fields |
| `Readers.TwoRequestsShareContext` | pkg/runner/reader_runner_test.go:104-141 | two requests on one stream get two responses, and the second runs in the context the first left |
| `Readers.ReaderRunner.constructor` | pkg/runner/reader_runner.go:20-28 | stores the streams, the file name and the heap size |
| `Readers.ReaderRunner.Process` | pkg/runner/reader_runner.go:35-85 | the output grows by exactly `Serve`'s responses; the input after the stopping point is left unread; the error returned is `Serve`'s stop reason |
| `Readers.ReaderRunner.Loop` | pkg/runner/reader_runner.go:43-84 | over an open runner, the loop's output, unread input and stop reason are `Serve`'s; the runner stays open |
| `Readers.ReaderRunner.Step` | pkg/runner/reader_runner.go:47-83 | one turn either stops, writing nothing and reading exactly what `Serve` reads when it stops there, or reads one request and appends one response, which is the first response of `Serve` |
| `Readers.Answer` | pkg/runner/reader_runner.go:58-82 | running one request in the open runner yields `Reply`'s response and context, and the runner stays open |
| `Procs.Decimal` | pkg/procrunner/procrunner.go:122 | the request id is a non-empty text of decimal digits, with no leading zero |
| `Procs.DecimalRoundTrip` | pkg/procrunner/procrunner.go:122 | reading the decimal text back gives the counter value |
| `Procs.DecimalInjective` | pkg/procrunner/procrunner.go:111-122 | two counter values give the same id exactly when they are equal |
| `Procs.Classify` | pkg/procrunner/procrunner.go:126-152 | success exactly when a response arrived with no error and the sent id; then the result is the response's `Result`; an encode error or a non-EOF decode error is returned unchanged; EOF is `Killed`; a response error is reported before the id is compared; a wrong id is "unexpected id: <id>" |
| `Procs.ParentReadsChildReply` | pkg/procrunner/procrunner.go:126-157 | the child's reply to a JSON request always carries a result when the parent dereferences one; the parent, using the corrected `Classify`, returns the stringified value or the child's error text unchanged |
| `Procs.ErrorfPlainPrefix` | pkg/procrunner/procrunner.go:144 | text containing no '%' passes through fmt.Errorf unchanged |
| `Procs.ClassifyAsWritten` | pkg/procrunner/procrunner.go:143-146 | the code as written: a response error is reported after fmt.Errorf has formatted it; every other outcome is as in `Classify` |
| `Procs.AsWrittenMangledPercent` | pkg/procrunner/procrunner.go:144 | a script error "50%d" reaches the caller as "50%!d(MISSING)" as written, and unchanged once corrected |
| `Procs.ProcRunner.constructor` | pkg/procrunner/procrunner.go:62-69 | a new session is open, with counter 0, no kill and nothing sent |
| `Procs.NewProcRunner` | pkg/procrunner/procrunner.go:38-70 | a start error is returned as is and gives no session; otherwise a new open session |
| `Procs.ProcRunner.IsClosed` | pkg/procrunner/procrunner.go:72-76 | reports the closed flag |
| `Procs.ProcRunner.close` | pkg/procrunner/procrunner.go:84-90 | the first call closes and kills once, returning the kill's error; later calls return nil and kill nothing; the counter and the sent requests are unchanged |
| `Procs.ProcRunner.Close` | pkg/procrunner/procrunner.go:78-82 | the same as `close` |
| `Procs.ProcRunner.RunCodeJSON` | pkg/procrunner/procrunner.go:102-168 | on a closed session: `Closed`, nothing changes; otherwise the counter rises by one (mod 2^64), a "json" request with the new counter's decimal id is sent unless encoding failed, cancellation closes the session and gives `Timeout`, and otherwise the outcome is that of the corrected `Classify` with the session still open; every error comes with an empty result |
| `Procs.TimeoutScenario` | pkg/procrunner/procrunner_test.go:34-46 | a timed-out call returns an empty result and `Timeout`; the session is then closed, and a second `Close` reports nothing and kills nothing more |
| `Procs.KilledScenario` | pkg/procrunner/procrunner_test.go:48-64 | an end of stream mid-call gives `Killed` with an empty result, and the session stays open; a later call on the dead stream fails, with an empty result, but not as `Closed` |
| `Pools.ProcRunnerPool.constructor` | pkg/procrunner/pool.go:18-24 | a new pool has running 0, the given max, and no live runners |
| `Pools.ProcRunnerPool.Running` | pkg/procrunner/pool.go:26-30 | reports the running count |
| `Pools.ProcRunnerPool.Max` | pkg/procrunner/pool.go:32-34 | reports the maximum (a constant field, so it never changes) |
| `Pools.ProcRunnerPool.WithinBounds` | pkg/procrunner/pool.go:39-51 | with a non-negative maximum and the pool invariant, 0 <= running <= max |
| `Pools.ProcRunnerPool.NewRunner` | pkg/procrunner/pool.go:36-53 | at or above the maximum: `MaxReached`, count unchanged; a start failure is returned as is, count unchanged; otherwise a new open runner joins the live set and running rises by one; the invariant running == number of live runners is kept |
| `Pools.ProcRunnerPool.Release` | pkg/procrunner/pool.go:46-50 | giving back a live runner once it is closed removes it from the live set and lowers running by exactly one |
| `Pools.ConcurrencyScenario` | pkg/procrunner/pool_test.go:20-41 | with max 2: acquire, acquire, a refused third acquire, close the first, acquire, close the remaining two, and running is 0 |

## Left out

- Byte framing and gob encoding and decoding, with their constructors. Streams are sequences of messages or decode outcomes.
- `pkg/runner/types.go` is a stale duplicate of the message types and constructors. The messages are modelled once, after `pkg/types/types.go`.
- Every V8 call is abstract, so no concrete JSON text is proved. These are `RunScript`, `JSONStringify`, `NewIsolate`, `NewContext`, `TerminateExecution`, `Dispose` and context close. The engine flag that `MaxHeapSizeOption.Apply` sets is not recorded either.
- The heap-limit crash of the child depends on V8 and the operating system. It appears only as the `DecodeEof` exchange.
- Process plumbing (`exec.Command`, pipes, `Start`, `Kill`) is left out. A start result and a kill result are parameters, and kills are counted.
- Goroutines, channels, `select`, the wait group and the mutexes are left out. Each call is one sequential step with a cancellation parameter. Races are not modelled, in particular the one in `runScript` where a finished script and a done context are both ready.
- `AddPostCloseFn` is called at pool.go:46 but not defined in `procrunner.go`. Giving a slot back is the explicit `Release`, called once per closed live runner.
- `cmd/` programs and `NewStdioRunner` are left out: they only wire standard streams, flags and files.
- Runners.Runner.runScript: after a cancelled run the context is left as it was. What the terminated script did to the context is not modelled, because the runner is closed at once.
- Procs.ProcRunner.RunCodeJSON: the nil-`Result` dereference at procrunner.go:157 is a precondition (`ResultPresent`), not a modelled panic. `Procs.ParentReadsChildReply` proves that the child's replies always meet it.
- Procs.ProcRunner.RunCodeJSON: classifies with the corrected `Classify` from "## Findings". A response error containing '%' is returned unchanged, while procrunner.go:144 as written formats it (`Procs.ClassifyAsWritten`).
- Procs.ParentReadsChildReply: states the child's error text unchanged only for the corrected `Classify`. As written, that holds only for text with no '%' (`Procs.ErrorfPlainPrefix`).
- Procs.ErrorfNoArgs models fmt verbs without flags, width or precision.

## Findings

| source | as written | input that shows it | evidently intended | confidence | as-written member | corrected member |
|---|---|---|---|---|---|---|
| pkg/procrunner/procrunner.go:144 | `fmt.Errorf(*res.Error)` uses the child's error text as a format string | a script that throws `'50%d'`: the caller gets "failed to run script because: 50%!d(MISSING)" | the child's error text reaches the caller unchanged | not executed; high | `Procs.ClassifyAsWritten`, exhibited by `Procs.AsWrittenMangledPercent` | `Procs.Classify` |
