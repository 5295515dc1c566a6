/**
 * The parent side (pkg/procrunner/procrunner.go): one supervised child
 * process, its closed flag, its request counter, and how the outcome of one
 * call is classified.
 */
module Procs {
  import opened Wrappers
  import opened Types
  import opened Engine
  import opened Runners
  import opened Readers

  /** The counter is a Go uint64: it wraps to zero after 2^64 - 1. */
  const U64: nat := 0x1_0000_0000_0000_0000

  function DigitChar(d: nat): (c: char)
    requires d < 10
    ensures '0' <= c <= '9' && c as int - '0' as int == d
  {
    ('0' as int + d) as char
  }

  /** The decimal text of n, as fmt.Sprintf("%d", n) prints it. */
  function Decimal(n: nat): (s: string)
    ensures |s| >= 1 && forall i | 0 <= i < |s| :: '0' <= s[i] <= '9'
    ensures s[0] == '0' ==> n == 0
    decreases n
  {
    if n < 10 then [DigitChar(n)] else Decimal(n / 10) + [DigitChar(n % 10)]
  }

  /** The value of a text of decimal digits: the inverse of Decimal. */
  function DecimalValue(s: string): int
    decreases |s|
  {
    if |s| == 0 then 0 else DecimalValue(s[..|s| - 1]) * 10 + (s[|s| - 1] as int - '0' as int)
  }

  lemma {:induction false} DecimalRoundTrip(n: nat)
    ensures DecimalValue(Decimal(n)) == n
    decreases n
  {
    if n >= 10 {
      DecimalRoundTrip(n / 10);
      var s := Decimal(n);
      assert s[..|s| - 1] == Decimal(n / 10);
    }
  }

  /** Distinct counter values give distinct request ids. */
  lemma DecimalInjective(a: nat, b: nat)
    ensures Decimal(a) == Decimal(b) <==> a == b
  {
    DecimalRoundTrip(a);
    DecimalRoundTrip(b);
  }

  /** The errors a call reports. */
  datatype CallError =
    | Closed                       // the session was already closed
    | Timeout                      // the caller's context was done first
    | Killed                       // the child's output ended: it died
    | Transport(msg: string)       // any other encode or decode error, as is
    | ScriptError(msg: string)     // the child answered with an error
    | UnexpectedId(id: string)     // the child answered another request
  {
    function Message(): string {
      match this
      case Closed => "closed"
      case Timeout => "timeout"
      case Killed => "killed"
      case Transport(m) => m
      case ScriptError(m) => m
      case UnexpectedId(id) => "unexpected id: " + id
    }
  }

  /** How the worker's exchange with the child ended. */
  datatype Exchange =
    | EncodeFailed(msg: string)
    | DecodeEof
    | DecodeFailed(msg: string)
    | Received(response: Response)

  /**
   * The success path returns the response's result by dereference, so a
   * response without error and with the expected id must carry a result.
   */
  predicate ResultPresent(id: string, ex: Exchange) {
    ex.Received? && ex.response.error.None? && ex.response.id == id ==> ex.response.result.Some?
  }

  /**
   * The outcome of a call that sent `id`, checked in order: encode error,
   * end of stream, other decode error, error in the response, then id.
   */
  function Classify(id: string, ex: Exchange): (r: Result<string, CallError>)
    requires ResultPresent(id, ex)
    ensures r.Success? <==> ex.Received? && ex.response.error.None? && ex.response.id == id
    ensures r.Success? ==> ex.response.result == Some(r.value)
    ensures ex.EncodeFailed? ==> r == Failure(Transport(ex.msg))
    ensures ex.DecodeEof? ==> r == Failure(Killed)
    ensures ex.DecodeFailed? ==> r == Failure(Transport(ex.msg))
    ensures ex.Received? && ex.response.error.Some? ==> r == Failure(ScriptError(ex.response.error.value))
    ensures ex.Received? && ex.response.error.None? && ex.response.id != id ==>
      r == Failure(UnexpectedId(ex.response.id)) && r.error.Message() == "unexpected id: " + ex.response.id
  {
    match ex
    case EncodeFailed(m) => Failure(Transport(m))
    case DecodeEof => Failure(Killed)
    case DecodeFailed(m) => Failure(Transport(m))
    case Received(res) =>
      if res.error.Some? then Failure(ScriptError(res.error.value))
      else if res.id != id then Failure(UnexpectedId(res.id))
      else Success(res.result.value)
  }

  /**
   * The child's reply to a JSON request always meets the parent's
   * expectations: the parent returns the stringified value when the script
   * ran and stringified, and otherwise the child's error text unchanged.
   */
  lemma ParentReadsChildReply<C, V>(eng: ScriptEngine<C, V>, ctx: C, fileName: string, code: string, n: nat)
    ensures var q := Request(Decimal(n), code, JsonType);
      var reply := Reply(eng, ctx, fileName, q).1;
      var (ctx', ran) := eng.run(ctx, code, fileName);
      && ResultPresent(q.id, Received(reply))
      && (ran.Failure? ==> Classify(q.id, Received(reply)) == Failure(ScriptError(ScriptFailurePrefix + ran.error)))
      && (ran.Success? ==>
            Classify(q.id, Received(reply)) ==
              match eng.stringify(ctx', ran.value)
              case Success(text) => Success(text)
              case Failure(e) => Failure(ScriptError(e)))
  {
  }

  /**
   * fmt.Errorf with a format string and no operands: "%%" prints "%", a
   * verb with no operand prints "%!v(MISSING)", a lone "%" at the end
   * prints "%!(NOVERB)". Flags, width and precision are not modelled.
   */
  function ErrorfNoArgs(format: string): string
    decreases |format|
  {
    if |format| == 0 then ""
    else if format[0] != '%' then [format[0]] + ErrorfNoArgs(format[1..])
    else if |format| == 1 then "%!(NOVERB)"
    else if format[1] == '%' then "%" + ErrorfNoArgs(format[2..])
    else "%!" + [format[1]] + "(MISSING)" + ErrorfNoArgs(format[2..])
  }

  /** Text without '%' passes through fmt.Errorf unchanged. */
  lemma {:induction false} ErrorfPlainPrefix(plain: string, rest: string)
    requires forall i | 0 <= i < |plain| :: plain[i] != '%'
    ensures ErrorfNoArgs(plain + rest) == plain + ErrorfNoArgs(rest)
    decreases |plain|
  {
    if |plain| == 0 {
      assert plain + rest == rest;
    } else {
      assert (plain + rest)[0] == plain[0] && (plain + rest)[1..] == plain[1..] + rest;
      ErrorfPlainPrefix(plain[1..], rest);
      calc {
        ErrorfNoArgs(plain + rest);
        [plain[0]] + ErrorfNoArgs(plain[1..] + rest);
        [plain[0]] + (plain[1..] + ErrorfNoArgs(rest));
        { assert [plain[0]] + plain[1..] == plain; }
        plain + ErrorfNoArgs(rest);
      }
    }
  }

  /** The classification as written: the child's error text is used as a format string. */
  function ClassifyAsWritten(id: string, ex: Exchange): (r: Result<string, CallError>)
    requires ResultPresent(id, ex)
    ensures ex.Received? && ex.response.error.Some? ==>
      r == Failure(ScriptError(ErrorfNoArgs(ex.response.error.value)))
    ensures !(ex.Received? && ex.response.error.Some?) ==> r == Classify(id, ex)
  {
    match Classify(id, ex)
    case Failure(ScriptError(m)) => Failure(ScriptError(ErrorfNoArgs(m)))
    case other => other
  }

  /**
   * A script that throws '50%d' reaches the caller as
   * "failed to run script because: 50%!d(MISSING)" in the code as written,
   * and unchanged in the corrected classification.
   */
  lemma AsWrittenMangledPercent()
    ensures var ex := Received(Response("1", Some(ScriptFailurePrefix + "50%d"), None));
      && ClassifyAsWritten("1", ex) == Failure(ScriptError(ScriptFailurePrefix + "50%!d(MISSING)"))
      && Classify("1", ex) == Failure(ScriptError(ScriptFailurePrefix + "50%d"))
      && ClassifyAsWritten("1", ex) != Classify("1", ex)
  {
    ErrorfPlainPrefix(ScriptFailurePrefix, "50%d");
    assert ErrorfNoArgs("50%d") == "50%!d(MISSING)";
    assert (ScriptFailurePrefix + "50%!d(MISSING)")[|ScriptFailurePrefix| + 3] != (ScriptFailurePrefix + "50%d")[|ScriptFailurePrefix| + 3];
  }

  /** One supervised child process. */
  class ProcRunner {
    const fileName: string
    const maxHeapSizeMB: nat
    /** The number of calls made on the open session, modulo 2^64. */
    var seqNo: nat
    var closed: bool
    /** How many times the child was sent a kill. */
    var kills: nat
    /** The requests written to the child's input, in order. */
    var sent: seq<Request>

    ghost predicate Valid()
      reads this
    {
      && seqNo < U64
      && kills == (if closed then 1 else 0)
      && forall i | 0 <= i < |sent| :: sent[i].responseType == JsonType
    }

    constructor (fileName: string, maxHeapSizeMB: nat)
      ensures Valid() && this.fileName == fileName && this.maxHeapSizeMB == maxHeapSizeMB
      ensures seqNo == 0 && !closed && kills == 0 && sent == []
    {
      this.fileName := fileName;
      this.maxHeapSizeMB := maxHeapSizeMB;
      seqNo := 0;
      closed := false;
      kills := 0;
      sent := [];
    }

    method IsClosed() returns (b: bool)
      ensures b == closed
    {
      b := closed;
    }

    /**
     * Kill the child the first time only; `killErr` is what the kill reports.
     * Later calls change nothing and report no error.
     */
    method close(killErr: Option<string>) returns (err: Option<string>)
      requires Valid()
      modifies this
      ensures Valid() && closed
      ensures old(closed) ==> err.None? && kills == old(kills)
      ensures !old(closed) ==> err == killErr && kills == old(kills) + 1
      ensures seqNo == old(seqNo) && sent == old(sent)
    {
      if closed {
        return None;
      }
      closed := true;
      kills := kills + 1;
      err := killErr;
    }

    method Close(killErr: Option<string>) returns (err: Option<string>)
      requires Valid()
      modifies this
      ensures Valid() && closed
      ensures old(closed) ==> err.None? && kills == old(kills)
      ensures !old(closed) ==> err == killErr && kills == old(kills) + 1
      ensures seqNo == old(seqNo) && sent == old(sent)
    {
      err := close(killErr);
    }

    /**
     * Run `code` in the child and return its JSON result. `cancelled` says
     * whether the caller's context was done before the worker finished, `ex`
     * how the worker's exchange with the child ended, `killErr` what a kill
     * would report.
     */
    method RunCodeJSON(code: string, cancelled: bool, ex: Exchange, killErr: Option<string>)
      returns (res: string, err: Option<CallError>)
      requires Valid()
      requires !closed && !cancelled ==> ResultPresent(Decimal((seqNo + 1) % U64), ex)
      modifies this
      ensures Valid()
      ensures err.Some? ==> res == ""
      ensures old(closed) ==> err == Some(Closed) && seqNo == old(seqNo) && closed && kills == old(kills) && sent == old(sent)
      ensures !old(closed) ==>
        var req := Request(Decimal(seqNo), code, JsonType);
        && seqNo == (old(seqNo) + 1) % U64
        && sent == old(sent) + (if ex.EncodeFailed? then [] else [req])
        && (cancelled ==> err == Some(Timeout) && closed && kills == old(kills) + 1)
        && (!cancelled ==>
              && closed == old(closed) && kills == old(kills)
              && match Classify(req.id, ex)
                 case Success(text) => err.None? && res == text
                 case Failure(e) => err == Some(e))
    {
      if closed {
        return "", Some(Closed);
      }
      seqNo := (seqNo + 1) % U64;
      var req := Request(Decimal(seqNo), code, JsonType);
      if !ex.EncodeFailed? {
        sent := sent + [req];
      }
      if cancelled {
        var _ := close(killErr);
        return "", Some(Timeout);
      }
      match Classify(req.id, ex)
      case Success(text) =>
        res, err := text, None;
      case Failure(e) =>
        res, err := "", Some(e);
    }
  }

  /** Start the child process; `spawnErr` is what starting it reports. */
  method NewProcRunner(fileName: string, maxHeapSizeMB: nat, spawnErr: Option<string>)
    returns (r: ProcRunner?, err: Option<string>)
    ensures err == spawnErr && (r == null <==> err.Some?)
    ensures r != null ==> fresh(r) && r.Valid() && r.fileName == fileName && r.maxHeapSizeMB == maxHeapSizeMB
    ensures r != null ==> r.seqNo == 0 && !r.closed && r.kills == 0 && r.sent == []
  {
    if spawnErr.Some? {
      return null, spawnErr;
    }
    r := new ProcRunner(fileName, maxHeapSizeMB);
    err := None;
  }

  /**
   * A call whose context is done first reports a timeout with an empty
   * result and closes the session; closing it again reports nothing and
   * kills nothing.
   */
  method TimeoutScenario(code: string, ex: Exchange) returns (res: string, err: Option<CallError>,
                                                             closedAfter: bool, again: Option<string>, kills: nat)
    ensures res == "" && err == Some(Timeout) && closedAfter && again.None? && kills == 1
  {
    var r := new ProcRunner("expression.js", 16);
    res, err := r.RunCodeJSON(code, true, ex, None);
    closedAfter := r.IsClosed();
    again := r.Close(None);
    kills := r.kills;
  }

  /**
   * A child whose output ends mid-call is reported as killed and the session
   * stays open; a later call on the dead stream fails with an empty result,
   * but not as Closed.
   */
  method KilledScenario(code: string, code2: string, later: Exchange)
    returns (res: string, err: Option<CallError>, closedAfter: bool, res2: string, err2: Option<CallError>)
    requires !later.Received?
    ensures res == "" && err == Some(Killed) && !closedAfter
    ensures res2 == "" && err2.Some? && err2 != Some(Closed)
  {
    var r := new ProcRunner("expression.js", 4);
    res, err := r.RunCodeJSON(code, false, DecodeEof, None);
    closedAfter := r.IsClosed();
    res2, err2 := r.RunCodeJSON(code2, false, later, None);
  }
}
