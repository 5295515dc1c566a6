/**
 * The in-process script runner (pkg/runner/runner.go): file-name
 * normalisation, the option loop of its constructor, the closed flag and
 * the classification of one script run.
 */
module Runners {
  import opened Wrappers
  import opened Engine

  const JsSuffix: string := ".js"
  const ScriptFailurePrefix: string := "failed to run script because: "

  predicate HasSuffix(s: string, suffix: string) {
    |suffix| <= |s| && s[|s| - |suffix|..] == suffix
  }

  /** Go's strings.TrimSuffix: drop one trailing `suffix` if present. */
  function TrimSuffix(s: string, suffix: string): (r: string)
    ensures HasSuffix(s, suffix) ==> r + suffix == s
    ensures !HasSuffix(s, suffix) ==> r == s
  {
    if HasSuffix(s, suffix) then s[..|s| - |suffix|] else s
  }

  /** The runner's file name: the given name with exactly one ".js" at its end. */
  function NormalizeFileName(name: string): (r: string)
    ensures HasSuffix(r, JsSuffix)
    ensures HasSuffix(name, JsSuffix) ==> r == name
    ensures !HasSuffix(name, JsSuffix) ==> r == name + JsSuffix
  {
    TrimSuffix(name, JsSuffix) + JsSuffix
  }

  lemma NormalizeIdempotent(name: string)
    ensures NormalizeFileName(NormalizeFileName(name)) == NormalizeFileName(name)
  {
  }

  /** The one option the repository defines; its Apply sets an engine flag and never fails. */
  datatype HeapOption = MaxHeapSizeOption(heapSizeMB: nat)

  function ApplyHeapOption(o: HeapOption): (err: Option<string>)
    ensures err.None?
  {
    None
  }

  /**
   * Apply the options in order, stopping at the first that fails. `applied`
   * is the number of Apply calls made; the options after a failure are never
   * applied.
   */
  method ApplyOptions<O>(options: seq<O>, apply: O -> Option<string>) returns (err: Option<string>, applied: nat)
    ensures applied <= |options|
    ensures err.None? ==> applied == |options| && forall j | 0 <= j < |options| :: apply(options[j]).None?
    ensures err.Some? ==> 0 < applied && apply(options[applied - 1]) == err
    ensures err.Some? ==> forall j | 0 <= j < applied - 1 :: apply(options[j]).None?
  {
    applied := 0;
    while applied < |options|
      invariant applied <= |options|
      invariant forall j | 0 <= j < applied :: apply(options[j]).None?
    {
      var e := apply(options[applied]);
      applied := applied + 1;
      if e.Some? {
        return e, applied;
      }
    }
    err := None;
  }

  /** Why a script run produced no value. */
  datatype RunError = RunnerClosed | ScriptFailed(detail: string) | TimedOut(detail: string) {
    /** The error text the runner reports. */
    function Message(): string {
      match this
      case RunnerClosed => "runner is closed"
      case ScriptFailed(d) => ScriptFailurePrefix + d
      case TimedOut(d) => "timeout: " + ScriptFailurePrefix + d
    }

    /** Whether the error wraps the runner's timeout error. */
    predicate IsTimeout() {
      TimedOut?
    }
  }

  /** The engine's own outcome, with a failure wrapped as a script failure. */
  function EngineOutcome<V>(out: Result<V, string>): (r: Result<V, RunError>)
    ensures out.Success? ==> r == Success(out.value)
    ensures out.Failure? ==> r == Failure(ScriptFailed(out.error)) && r.error.Message() == ScriptFailurePrefix + out.error
  {
    match out
    case Success(v) => Success(v)
    case Failure(e) => Failure(ScriptFailed(e))
  }

  /** A runner: one engine context, the normalised file name scripts are run under, and the closed flag. */
  class Runner<C, V> {
    const engine: ScriptEngine<C, V>
    const fileName: string
    var codeCtx: C
    var closed: bool

    constructor (engine: ScriptEngine<C, V>, fileName: string)
      ensures this.engine == engine && this.fileName == fileName
      ensures codeCtx == engine.newContext && !closed
    {
      this.engine := engine;
      this.fileName := fileName;
      codeCtx := engine.newContext;
      closed := false;
    }

    /** Free the context; the runner stays closed from now on. */
    method Close()
      modifies this
      ensures closed && codeCtx == old(codeCtx)
    {
      closed := true;
    }

    /**
     * Run `script` unless the runner is closed. `cancel` is the outcome of
     * the race: None when the engine finished first, Some(detail) when the
     * caller's context was done first and the terminated engine reported
     * `detail`.
     */
    method RunScript(script: string, cancel: Option<string>) returns (val: Result<V, RunError>)
      modifies this
      ensures old(closed) ==> val == Failure(RunnerClosed) && closed && codeCtx == old(codeCtx)
      ensures !old(closed) && cancel.None? ==>
        var (ctx', out) := engine.run(old(codeCtx), script, fileName);
        codeCtx == ctx' && !closed && val == EngineOutcome(out)
      ensures !old(closed) && cancel.Some? ==>
        closed && val == Failure(TimedOut(cancel.value)) && val.error.IsTimeout() && codeCtx == old(codeCtx)
    {
      if closed {
        return Failure(RunnerClosed);
      }
      val := runScript(script, cancel);
    }

    method runScript(script: string, cancel: Option<string>) returns (val: Result<V, RunError>)
      modifies this
      ensures cancel.None? ==>
        var (ctx', out) := engine.run(old(codeCtx), script, fileName);
        codeCtx == ctx' && closed == old(closed) && val == EngineOutcome(out)
      ensures cancel.Some? ==> closed && val == Failure(TimedOut(cancel.value)) && codeCtx == old(codeCtx)
    {
      match cancel
      case Some(terminated) =>
        Close();
        val := Failure(TimedOut(terminated));
      case None =>
        var (ctx', out) := engine.run(codeCtx, script, fileName);
        codeCtx := ctx';
        val := EngineOutcome(out);
    }
  }

  /**
   * Create a runner: normalise the file name, apply the options in order and
   * stop at the first failure, in which case no runner is created.
   */
  method NewRunner<C, V, O>(engine: ScriptEngine<C, V>, fileName: string, options: seq<O>, apply: O -> Option<string>)
    returns (r: Runner?<C, V>, err: Option<string>, applied: nat)
    ensures (r == null) == err.Some?
    ensures applied <= |options|
    ensures err.None? ==> applied == |options| && forall j | 0 <= j < |options| :: apply(options[j]).None?
    ensures err.Some? ==> 0 < applied && apply(options[applied - 1]) == err
    ensures err.Some? ==> forall j | 0 <= j < applied - 1 :: apply(options[j]).None?
    ensures r != null ==> fresh(r) && r.engine == engine && r.fileName == NormalizeFileName(fileName)
    ensures r != null ==> r.codeCtx == engine.newContext && !r.closed
  {
    var name := NormalizeFileName(fileName);
    err, applied := ApplyOptions(options, apply);
    if err.Some? {
      return null, err, applied;
    }
    r := new Runner(engine, name);
  }
}
