/**
 * The child side (pkg/runner/reader_runner.go): a loop that decodes
 * requests from its input stream, runs each in one persistent runner and
 * writes one response per request to its output stream.
 */
module Readers {
  import opened Wrappers
  import opened Types
  import opened Libs
  import opened Engine
  import opened Runners

  const CreateFailurePrefix: string := "failed to create runner: "
  const DecodeFailurePrefix: string := "failed to decode req: "
  const UnknownTypePrefix: string := "unknown response type: "

  /** One outcome of decoding the next message from the input stream. */
  datatype Decoded = Req(request: Request) | Eof | DecodeError(msg: string)

  /** Why the loop ended. */
  datatype Stop = CleanEof | DecodeFailed(msg: string) | WriteFailed(msg: string) {
    /** The error the loop returns: nil for a clean end of input. */
    function Error(): (e: Option<string>)
      ensures e.None? <==> CleanEof?
    {
      match this
      case CleanEof => None
      case DecodeFailed(m) => Some(DecodeFailurePrefix + m)
      case WriteFailed(m) => Some(m)
    }
  }

  /**
   * The response to one request, and the context afterwards, when the
   * request's script runs in context `ctx` of an open runner.
   */
  function Reply<C, V>(eng: ScriptEngine<C, V>, ctx: C, fileName: string, req: Request): (out: (C, Response))
    ensures out.1.id == req.id && WellFormed(out.1)
    ensures out.0 == eng.run(ctx, req.code, fileName).0
    ensures var ran := eng.run(ctx, req.code, fileName).1;
      && (ran.Failure? ==> out.1 == ErrResult(req.id, ScriptFailurePrefix + ran.error))
      && (ran.Success? && req.responseType == NilType ==> out.1.error.None? && out.1.result.None?)
      && (ran.Success? && req.responseType == JsonType ==>
            out.1 == JsonResult(req.id, eng.stringify(out.0, ran.value)))
      && (ran.Success? && req.responseType != NilType && req.responseType != JsonType ==>
            out.1 == ErrResult(req.id, UnknownTypePrefix + req.responseType))
  {
    var (ctx', ran) := eng.run(ctx, req.code, fileName);
    var response :=
      match EngineOutcome(ran)
      case Failure(e) => ErrResult(req.id, e.Message())
      case Success(v) =>
        if req.responseType == NilType then NilResult(req.id)
        else if req.responseType == JsonType then JsonResult(req.id, eng.stringify(ctx', v))
        else ErrResult(req.id, UnknownTypePrefix + req.responseType);
    (ctx', response)
  }

  /** How one run of the loop ends: the responses written, the input messages read, and why it stopped. */
  datatype LoopRun = LoopRun(out: seq<Response>, consumed: nat, stop: Stop)

  /**
   * The loop as a function of the remaining input: starting in context
   * `ctx`, with `written` responses already in the output and a writer whose
   * k-th write fails with writeFault(k) when that is Some. Running out of
   * input reads as a clean end of stream.
   */
  function Serve<C, V>(eng: ScriptEngine<C, V>, ctx: C, fileName: string, input: seq<Decoded>,
                       written: nat, writeFault: nat -> Option<string>): (s: LoopRun)
    ensures s.consumed <= |input|
    ensures |s.out| <= s.consumed
    ensures |input| > 0 ==> s.consumed > 0
    decreases |input|
  {
    if |input| == 0 then LoopRun([], 0, CleanEof)
    else
      match input[0]
      case Eof => LoopRun([], 1, CleanEof)
      case DecodeError(m) => LoopRun([], 1, DecodeFailed(m))
      case Req(q) =>
        var (ctx', response) := Reply(eng, ctx, fileName, q);
        match writeFault(written)
        case Some(w) => LoopRun([], 1, WriteFailed(w))
        case None =>
          var rest := Serve(eng, ctx', fileName, input[1..], written + 1, writeFault);
          LoopRun([response] + rest.out, rest.consumed + 1, rest.stop)
  }

  /** Serve on input starting with a request whose response is written. */
  lemma ServeAnswered<C, V>(eng: ScriptEngine<C, V>, ctx: C, fileName: string, q: Request, input: seq<Decoded>,
                            written: nat, writeFault: nat -> Option<string>)
    requires |input| > 0 && input[0] == Req(q) && writeFault(written).None?
    ensures var next := Reply(eng, ctx, fileName, q);
      var rest := Serve(eng, next.0, fileName, input[1..], written + 1, writeFault);
      Serve(eng, ctx, fileName, input, written, writeFault) == LoopRun([next.1] + rest.out, rest.consumed + 1, rest.stop)
  {
  }

  /** Serve on input whose first message ends the loop. */
  lemma ServeEnded<C, V>(eng: ScriptEngine<C, V>, ctx: C, fileName: string, input: seq<Decoded>,
                         written: nat, writeFault: nat -> Option<string>)
    requires |input| == 0 || !input[0].Req? || writeFault(written).Some?
    ensures Serve(eng, ctx, fileName, input, written, writeFault) ==
      if |input| == 0 then LoopRun([], 0, CleanEof)
      else if input[0].Eof? then LoopRun([], 1, CleanEof)
      else if input[0].DecodeError? then LoopRun([], 1, DecodeFailed(input[0].msg))
      else LoopRun([], 1, WriteFailed(writeFault(written).value))
  {
  }

  /** The requests among some decoded messages, in order. */
  function RequestsOf(ds: seq<Decoded>): (rs: seq<Request>)
    ensures |rs| <= |ds|
  {
    if |ds| == 0 then []
    else if ds[0].Req? then [ds[0].request] + RequestsOf(ds[1..])
    else RequestsOf(ds[1..])
  }

  /** The context after the given requests have run, one after the other, from `ctx`. */
  function ContextAfter<C, V>(eng: ScriptEngine<C, V>, ctx: C, fileName: string, reqs: seq<Request>): C
    decreases |reqs|
  {
    if |reqs| == 0 then ctx
    else ContextAfter(eng, Reply(eng, ctx, fileName, reqs[0]).0, fileName, reqs[1..])
  }

  /**
   * Every message read before the last one is a request, and the reason for
   * stopping is the last message read: an end of stream (or no message left),
   * a decode error, or a request whose response could not be written; every
   * response that was written went through a write that did not fail.
   */
  lemma {:induction false} ServeStops<C, V>(eng: ScriptEngine<C, V>, ctx: C, fileName: string, input: seq<Decoded>,
                                            written: nat, writeFault: nat -> Option<string>)
    ensures var s := Serve(eng, ctx, fileName, input, written, writeFault);
      && (forall i | 0 <= i < s.consumed - 1 :: input[i].Req?)
      && (s.stop == CleanEof ==>
            (s.consumed == |input| && (forall i | 0 <= i < |input| :: input[i].Req?))
            || (0 < s.consumed && input[s.consumed - 1] == Eof))
      && (s.stop.DecodeFailed? ==> 0 < s.consumed && input[s.consumed - 1] == DecodeError(s.stop.msg))
      && (s.stop.WriteFailed? ==>
            0 < s.consumed && input[s.consumed - 1].Req? && writeFault(written + |s.out|) == Some(s.stop.msg))
      && (forall k | written <= k < written + |s.out| :: writeFault(k).None?)
    decreases |input|
  {
    if |input| > 0 && input[0].Req? {
      var (ctx', _) := Reply(eng, ctx, fileName, input[0].request);
      if writeFault(written).None? {
        ServeStops(eng, ctx', fileName, input[1..], written + 1, writeFault);
        var s := Serve(eng, ctx, fileName, input, written, writeFault);
        var rest := Serve(eng, ctx', fileName, input[1..], written + 1, writeFault);
        assert s.out == [Reply(eng, ctx, fileName, input[0].request).1] + rest.out;
      }
    }
  }

  /**
   * Exactly one response per request read, in request order (one fewer when
   * the last write failed), each the reply to its request in the context left
   * by the requests before it; so every response echoes its request's id.
   */
  lemma {:induction false} ServeAnswersInOrder<C, V>(eng: ScriptEngine<C, V>, ctx: C, fileName: string, input: seq<Decoded>,
                                                     written: nat, writeFault: nat -> Option<string>)
    ensures var s := Serve(eng, ctx, fileName, input, written, writeFault);
      var reqs := RequestsOf(input[..s.consumed]);
      && |s.out| == (if s.stop.WriteFailed? then |reqs| - 1 else |reqs|)
      && (forall i | 0 <= i < |s.out| ::
            s.out[i] == Reply(eng, ContextAfter(eng, ctx, fileName, reqs[..i]), fileName, reqs[i]).1)
    decreases |input|
  {
    var s := Serve(eng, ctx, fileName, input, written, writeFault);
    if |input| > 0 {
      assert input[..s.consumed] == [input[0]] + input[1..][..s.consumed - 1];
      if input[0].Req? {
        var q := input[0].request;
        var (ctx', response) := Reply(eng, ctx, fileName, q);
        if writeFault(written).None? {
          ServeAnswersInOrder(eng, ctx', fileName, input[1..], written + 1, writeFault);
          var rest := Serve(eng, ctx', fileName, input[1..], written + 1, writeFault);
          var reqs' := RequestsOf(input[1..][..rest.consumed]);
          var reqs := RequestsOf(input[..s.consumed]);
          assert reqs == [q] + reqs';
          forall i | 0 <= i < |s.out|
            ensures s.out[i] == Reply(eng, ContextAfter(eng, ctx, fileName, reqs[..i]), fileName, reqs[i]).1
          {
            if i > 0 {
              assert reqs[..i][1..] == reqs'[..i - 1];
              assert s.out[i] == rest.out[i - 1];
            }
          }
        } else {
          assert RequestsOf(input[..s.consumed]) == [q] + RequestsOf([]);
        }
      } else {
        assert RequestsOf(input[..s.consumed]) == RequestsOf(input[1..][..0]);
      }
    }
  }

  /** Every response written carries the id of the request it answers, in order. */
  lemma ServeEchoesIds<C, V>(eng: ScriptEngine<C, V>, ctx: C, fileName: string, input: seq<Decoded>,
                             written: nat, writeFault: nat -> Option<string>)
    ensures var s := Serve(eng, ctx, fileName, input, written, writeFault);
      var reqs := RequestsOf(input[..s.consumed]);
      |s.out| <= |reqs| && forall i | 0 <= i < |s.out| :: s.out[i].id == reqs[i].id && WellFormed(s.out[i])
  {
    ServeAnswersInOrder(eng, ctx, fileName, input, written, writeFault);
  }

  /**
   * Two requests on one stream run in one context: the second sees the
   * context the first left, and the loop ends cleanly with two responses.
   */
  lemma TwoRequestsShareContext<C, V>(eng: ScriptEngine<C, V>, ctx: C, fileName: string, a: Request, b: Request,
                                      writeFault: nat -> Option<string>)
    requires writeFault(0).None? && writeFault(1).None?
    ensures var first := Reply(eng, ctx, fileName, a);
      Serve(eng, ctx, fileName, [Req(a), Req(b)], 0, writeFault) ==
        LoopRun([first.1, Reply(eng, first.0, fileName, b).1], 2, CleanEof)
  {
    var first := Reply(eng, ctx, fileName, a);
    var second := Reply(eng, first.0, fileName, b);
    assert [Req(a), Req(b)][1..] == [Req(b)];
    assert [Req(b)][1..] == [];
    assert Serve(eng, first.0, fileName, [Req(b)], 1, writeFault) == LoopRun([second.1], 1, CleanEof);
  }

  /**
   * The child's loop over its streams: `input` holds the messages not yet
   * decoded, `output` the responses written so far, and `writeFault` says
   * which write of the output fails.
   */
  class ReaderRunner {
    const fileName: string
    const maxHeapSizeMB: nat
    const writeFault: nat -> Option<string>
    var input: seq<Decoded>
    var output: seq<Response>

    constructor (input: seq<Decoded>, output: seq<Response>, writeFault: nat -> Option<string>,
                 fileName: string, maxHeapSizeMB: nat)
      ensures this.input == input && this.output == output && this.writeFault == writeFault
      ensures this.fileName == fileName && this.maxHeapSizeMB == maxHeapSizeMB
    {
      this.input := input;
      this.output := output;
      this.writeFault := writeFault;
      this.fileName := fileName;
      this.maxHeapSizeMB := maxHeapSizeMB;
    }

    /**
     * Create the runner with the heap-size option, then answer requests until
     * the input ends, a message fails to decode or a write fails. The output
     * only grows, and the input after the stopping point is left unread.
     */
    method Process<C, V>(eng: ScriptEngine<C, V>) returns (err: Option<string>)
      modifies this
      ensures var s := Serve(eng, eng.newContext, NormalizeFileName(fileName), old(input), |old(output)|, writeFault);
        && output == old(output) + s.out
        && input == old(input)[s.consumed..]
        && err == s.stop.Error()
    {
      var runner, createErr, _ := NewRunner(eng, fileName, [MaxHeapSizeOption(maxHeapSizeMB)], ApplyHeapOption);
      if runner == null {
        match createErr {
          case Some(e) => return Some(CreateFailurePrefix + e);
          case None => return None;
        }
      }
      var stop := Loop(runner);
      runner.Close();
      err := stop.Error();
    }

    /** The decode-run-write loop over an open runner; the runner stays open. */
    method Loop<C, V>(runner: Runner<C, V>) returns (stop: Stop)
      requires !runner.closed
      modifies this, runner
      ensures !runner.closed
      ensures var s := Serve(runner.engine, old(runner.codeCtx), runner.fileName, old(input), |old(output)|, writeFault);
        && output == old(output) + s.out
        && input == old(input)[s.consumed..]
        && stop == s.stop
    {
      ghost var input0, output0 := input, output;
      ghost var whole := Serve(runner.engine, runner.codeCtx, runner.fileName, input0, |output0|, writeFault);
      ghost var consumed: nat, produced: seq<Response> := 0, [];
      var done := false;
      stop := CleanEof;
      while !done
        invariant !runner.closed
        invariant consumed <= |input0| && input == input0[consumed..]
        invariant output == output0 + produced
        invariant !done ==>
          var rest := Serve(runner.engine, runner.codeCtx, runner.fileName, input, |output|, writeFault);
          whole == LoopRun(produced + rest.out, consumed + rest.consumed, rest.stop)
        invariant done ==> whole == LoopRun(produced, consumed, stop)
        decreases |input| + (if done then 0 else 1)
      {
        var ended, read, response := Step(runner);
        assert input0[consumed..][read..] == input0[consumed + read..];
        consumed := consumed + read;
        match ended
        case Some(st) =>
          done, stop := true, st;
          assert produced + [] == produced;
        case None =>
          ghost var rest := Serve(runner.engine, runner.codeCtx, runner.fileName, input, |output|, writeFault);
          assert produced + ([response] + rest.out) == (produced + [response]) + rest.out;
          assert output0 + (produced + [response]) == (output0 + produced) + [response];
          produced := produced + [response];
      }
    }

    /**
     * One turn of the loop: decode the next message and, for a request,
     * answer it. Some(stop) when the loop ends here, None when it goes on
     * after writing `response`; `read` is the number of messages decoded.
     */
    method Step<C, V>(runner: Runner<C, V>) returns (ended: Option<Stop>, read: nat, response: Response)
      requires !runner.closed
      modifies this, runner
      ensures !runner.closed
      ensures read <= |old(input)| && input == old(input)[read..]
      ensures var here := Serve(runner.engine, old(runner.codeCtx), runner.fileName, old(input), |old(output)|, writeFault);
        match ended
        case Some(st) =>
          && output == old(output)
          && here == LoopRun([], read, st)
        case None =>
          var rest := Serve(runner.engine, runner.codeCtx, runner.fileName, input, |output|, writeFault);
          && read == 1
          && output == old(output) + [response]
          && here == LoopRun([response] + rest.out, rest.consumed + 1, rest.stop)
    {
      ghost var ctx := runner.codeCtx;
      response := NilResult("");
      if |input| == 0 {
        ServeEnded(runner.engine, ctx, runner.fileName, input, |output|, writeFault);
        return Some(CleanEof), 0, response;
      }
      var next := input[0];
      if !next.Req? || writeFault(|output|).Some? {
        ServeEnded(runner.engine, ctx, runner.fileName, input, |output|, writeFault);
      } else {
        ServeAnswered(runner.engine, ctx, runner.fileName, next.request, input, |output|, writeFault);
      }
      input, read := input[1..], 1;
      match next
      case Eof =>
        ended := Some(CleanEof);
      case DecodeError(m) =>
        ended := Some(DecodeFailed(m));
      case Req(q) =>
        response := Answer(runner, q);
        match writeFault(|output|)
        case Some(w) =>
          ended := Some(WriteFailed(w));
        case None =>
          output := output + [response];
          ended := None;
    }
  }

  /** One turn of the loop for a decoded request: run it in the open runner and build its response. */
  method Answer<C, V>(runner: Runner<C, V>, q: Request) returns (response: Response)
    requires !runner.closed
    modifies runner
    ensures !runner.closed
    ensures runner.codeCtx == Reply(runner.engine, old(runner.codeCtx), runner.fileName, q).0
    ensures response == Reply(runner.engine, old(runner.codeCtx), runner.fileName, q).1
  {
    var val := runner.RunScript(q.code, None);
    match val
    case Failure(e) =>
      response := ErrResult(q.id, e.Message());
    case Success(v) =>
      if q.responseType == NilType {
        response := NilResult(q.id);
      } else if q.responseType == JsonType {
        response := JsonResult(q.id, runner.engine.stringify(runner.codeCtx, v));
      } else {
        response := ErrResult(q.id, UnknownTypePrefix + q.responseType);
      }
  }
}
