/** The C# WebAssembly client (`csharp_client/WasmClient.cs`): a module
    handle, an instance handle and an initialised flag, updated by
    `Initialize` and `Dispose` and checked by `Health` and `Query`. The
    native entry points are oracles: their results are parameters, and the
    client keeps a record of the calls it makes. Handles are integers, with
    0 standing for `IntPtr.Zero`. */
module WasmLifecycle {
  datatype Option<T> = None | Some(value: T)

  /** A call into the native library. */
  datatype NativeCall =
    | LoadModule
    | CreateInstance(wasmModule: int)
    | CallFunction(wasmInstance: int, name: string, input: Option<string>)
    | DestroyInstance(wasmInstance: int)
    | UnloadModule(wasmModule: int)

  /** What `CallWasmFunction` gives back: a string, null, or an exception
      with its message. */
  datatype NativeResult = Returned(text: string) | ReturnedNull | Threw(message: string)

  /** What `LoadWasmModule` or `CreateWasmInstance` gives back: a handle,
      or an exception with its message. */
  datatype HandleResult = Handle(h: int) | HandleThrew(message: string)

  /** The exceptions the client throws. `Rethrown` is one raised by the
      file read or by the native library, which `Initialize` passes on
      unchanged. */
  datatype Exception =
    | FileNotFound(message: string)
    | InvalidOperation(message: string)
    | Argument(message: string)
    | Rethrown(message: string)

  datatype Outcome<T> = Success(value: T) | Failure(error: Exception)

  const NotInitialized := "❌ WASM module not initialized"
  const HealthPassed := "✅ Health check passed"

  /** The native calls `Dispose` makes: destroy for a live instance, then
      unload for a live module. */
  function DisposeCalls(wasmInstance: int, wasmModule: int): (r: seq<NativeCall>)
    ensures |r| == (if wasmInstance != 0 then 1 else 0) + (if wasmModule != 0 then 1 else 0)
    ensures r == [] <==> wasmInstance == 0 && wasmModule == 0
    ensures wasmInstance != 0 ==> r[0] == DestroyInstance(wasmInstance)
    ensures wasmModule != 0 ==> r[|r| - 1] == UnloadModule(wasmModule)
  {
    (if wasmInstance != 0 then [DestroyInstance(wasmInstance)] else [])
    + (if wasmModule != 0 then [UnloadModule(wasmModule)] else [])
  }

  class WasmClient {
    var wasmModule: int
    var wasmInstance: int
    var initialized: bool
    /** Every native call made so far, in order. */
    var calls: seq<NativeCall>

    /** Initialised means both handles are live. */
    predicate Valid()
      reads this
    {
      initialized ==> wasmModule != 0 && wasmInstance != 0
    }

    constructor ()
      ensures wasmModule == 0 && wasmInstance == 0 && !initialized && calls == []
      ensures Valid()
    {
      wasmModule := 0;
      wasmInstance := 0;
      initialized := false;
      calls := [];
    }

    /** `Initialize`: a missing file changes nothing, and neither does a
        file read that throws. Otherwise the module handle is stored
        whatever it is; a zero handle fails before any instance is made,
        and a zero instance handle fails after it is stored. A native call
        that throws leaves its handle as it was, and its exception is
        rethrown. Only when both handles are live does the client become
        initialised; a failure leaves the flag as it was. `readFailure` is
        the message of an exception from reading the file, if any. */
    method Initialize(path: string, fileExists: bool, readFailure: Option<string>,
                      loaded: HandleResult, created: HandleResult) returns (r: Outcome<()>)
      modifies this
      ensures !fileExists ==>
        r == Failure(FileNotFound("WASM file not found: " + path))
        && wasmModule == old(wasmModule) && wasmInstance == old(wasmInstance)
        && initialized == old(initialized) && calls == old(calls)
      ensures fileExists && readFailure.Some? ==>
        r == Failure(Rethrown(readFailure.value))
        && wasmModule == old(wasmModule) && wasmInstance == old(wasmInstance)
        && initialized == old(initialized) && calls == old(calls)
      ensures fileExists && readFailure.None? && loaded.HandleThrew? ==>
        r == Failure(Rethrown(loaded.message))
        && wasmModule == old(wasmModule) && wasmInstance == old(wasmInstance)
        && initialized == old(initialized) && calls == old(calls) + [LoadModule]
      ensures fileExists && readFailure.None? && loaded == Handle(0) ==>
        r == Failure(InvalidOperation("Failed to load WASM module"))
        && wasmModule == 0 && wasmInstance == old(wasmInstance)
        && initialized == old(initialized) && calls == old(calls) + [LoadModule]
      ensures fileExists && readFailure.None? && loaded.Handle? && loaded.h != 0 && created.HandleThrew? ==>
        r == Failure(Rethrown(created.message))
        && wasmModule == loaded.h && wasmInstance == old(wasmInstance)
        && initialized == old(initialized) && calls == old(calls) + [LoadModule, CreateInstance(loaded.h)]
      ensures fileExists && readFailure.None? && loaded.Handle? && loaded.h != 0 && created == Handle(0) ==>
        r == Failure(InvalidOperation("Failed to create WASM instance"))
        && wasmModule == loaded.h && wasmInstance == 0
        && initialized == old(initialized) && calls == old(calls) + [LoadModule, CreateInstance(loaded.h)]
      ensures fileExists && readFailure.None? && loaded.Handle? && loaded.h != 0 && created.Handle? && created.h != 0 ==>
        r == Success(()) && wasmModule == loaded.h && wasmInstance == created.h
        && initialized && calls == old(calls) + [LoadModule, CreateInstance(loaded.h)]
      ensures r.Success? ==> initialized && Valid()
      ensures !old(initialized) ==> (initialized <==> r.Success?)
      ensures old(Valid()) && !old(initialized) ==> Valid()
    {
      if !fileExists {
        return Failure(FileNotFound("WASM file not found: " + path));
      }
      if readFailure.Some? {
        return Failure(Rethrown(readFailure.value));
      }
      calls := calls + [LoadModule];
      if loaded.HandleThrew? {
        return Failure(Rethrown(loaded.message));
      }
      wasmModule := loaded.h;
      if wasmModule == 0 {
        return Failure(InvalidOperation("Failed to load WASM module"));
      }
      calls := calls + [CreateInstance(wasmModule)];
      if created.HandleThrew? {
        return Failure(Rethrown(created.message));
      }
      wasmInstance := created.h;
      if wasmInstance == 0 {
        return Failure(InvalidOperation("Failed to create WASM instance"));
      }
      initialized := true;
      return Success(());
    }

    /** `Health`: an uninitialised client answers without a native call;
        otherwise the native `health` function's answer, the pass message
        for null, or the failure message. */
    method Health(result: NativeResult) returns (r: string)
      modifies this
      ensures wasmModule == old(wasmModule) && wasmInstance == old(wasmInstance) && initialized == old(initialized)
      ensures !initialized ==> r == NotInitialized && calls == old(calls)
      ensures initialized ==> calls == old(calls) + [CallFunction(wasmInstance, "health", None)]
      ensures initialized ==>
        r == match result
          case Returned(text) => text
          case ReturnedNull => HealthPassed
          case Threw(message) => "❌ Health check failed: " + message
    {
      if !initialized {
        return NotInitialized;
      }
      calls := calls + [CallFunction(wasmInstance, "health", None)];
      match result
      case Returned(text) => r := text;
      case ReturnedNull => r := HealthPassed;
      case Threw(message) => r := "❌ Health check failed: " + message;
    }

    /** `Query`: the initialisation check comes before the empty-query
        check, and neither makes a native call; a native exception becomes
        an `InvalidOperationException` carrying its message. A null query
        is `None`. */
    method Query(sql: Option<string>, result: NativeResult) returns (r: Outcome<string>)
      modifies this
      ensures wasmModule == old(wasmModule) && wasmInstance == old(wasmInstance) && initialized == old(initialized)
      ensures !initialized ==> r == Failure(InvalidOperation("WASM module not initialized")) && calls == old(calls)
      ensures initialized && (sql.None? || sql.value == "") ==>
        r == Failure(Argument("SQL query cannot be empty")) && calls == old(calls)
      ensures initialized && sql.Some? && sql.value != "" ==>
        calls == old(calls) + [CallFunction(wasmInstance, "query", sql)]
        && r == match result
          case Returned(text) => Success(text)
          case ReturnedNull => Success("Query executed: " + sql.value)
          case Threw(message) => Failure(InvalidOperation("Query failed: " + message))
    {
      if !initialized {
        return Failure(InvalidOperation("WASM module not initialized"));
      }
      if sql.None? || sql.value == "" {
        return Failure(Argument("SQL query cannot be empty"));
      }
      calls := calls + [CallFunction(wasmInstance, "query", sql)];
      match result
      case Returned(text) => r := Success(text);
      case ReturnedNull => r := Success("Query executed: " + sql.value);
      case Threw(message) => r := Failure(InvalidOperation("Query failed: " + message));
    }

    /** `Dispose`: releases each live handle, zeroes both and clears the
        flag, so a client disposed once makes no native call when disposed
        again. */
    method Dispose()
      modifies this
      ensures wasmModule == 0 && wasmInstance == 0 && !initialized
      ensures calls == old(calls) + DisposeCalls(old(wasmInstance), old(wasmModule))
      ensures old(wasmModule) == 0 && old(wasmInstance) == 0 ==> calls == old(calls)
      ensures Valid()
    {
      if wasmInstance != 0 {
        calls := calls + [DestroyInstance(wasmInstance)];
        wasmInstance := 0;
      }
      if wasmModule != 0 {
        calls := calls + [UnloadModule(wasmModule)];
        wasmModule := 0;
      }
      initialized := false;
    }
  }
}
