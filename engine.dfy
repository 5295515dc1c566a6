/**
 * The embedded script engine, seen only through what the runner asks of it.
 * C is the state of one persistent execution context (variables and
 * functions declared by earlier scripts), V a value the engine hands back.
 */
module Engine {
  import opened Wrappers

  datatype ScriptEngine<!C, !V> = ScriptEngine(
    /** The state of a freshly created context. */
    newContext: C,
    /** Run a script (text, origin file name) in a context: the context afterwards, and a value or the engine's error message. */
    run: (C, string, string) -> (C, Result<V, string>),
    /** JSON-stringify a value in a context: the text or the engine's error message. */
    stringify: (C, V) -> Result<string, string>)
}
