/** The drivers of compiler.ts: `buildElmProcess`, `compile`,
    `compileToString`, `compileToModuleString` and `compileToModule`. Each
    call meets the outside world once, and a `World` value stands for every
    answer Deno gives it: the inherited environment, what spawning the
    compiler does, the compiler's stderr and exit status, the temporary
    directory and the files present after the compiler has run. The ghost
    flags `closed` and `tempRemoved` record which clean-up steps ran. */
module Drivers {
  import opened Bags
  import opened JsValues
  import opened Text
  import opened CompilerArgs
  import opened ProcessOptions
  import opened CompilerErrors
  import opened ModuleRewrite

  /** What `process.status()` gives: the exit outcome, or what it rejects with. */
  datatype ExitStatus = Exited(success: bool, code: int) | StatusFailed(error: JsValue)

  datatype World = World(
    inherited: Bag<string>,       // `Deno.env.toObject()`
    spawnError: Option<JsValue>,  // what `options.run` throws, if it throws
    stderr: string,               // the decoded `process.stderrOutput()`
    status: ExitStatus,
    tempDir: string,              // `Deno.makeTempDir()`
    files: map<string, string>)   // file contents once the compiler is done

  const StdoutStderrPiped := Obj([("stdout", Str("piped")), ("stderr", Str("piped"))])

  function RunCheckMessage(run: JsValue): string {
    "options.run was a(n) " + TypeOf(run) + " instead of a function."
  }

  /** The message names the type `run` had: two values give the same
      message exactly when they have the same `typeof`. */
  lemma RunCheckNamesType(a: JsValue, b: JsValue)
    ensures RunCheckMessage(a) == RunCheckMessage(b) <==> TypeOf(a) == TypeOf(b)
  {
    MiddleDetermined("options.run was a(n) ", TypeOf(a), TypeOf(b), " instead of a function.");
  }

  /** The line `verbose` logs: the binary and its arguments, space
      separated, after the word `Running`. */
  function CommandLine(pathToElm: JsValue, args: seq<JsValue>): (r: string)
    ensures StartsWith(r, "Running ")
    ensures !Nullish(pathToElm) ==> StartsWith(r, "Running " + JsToString(pathToElm))
  {
    RunningHead(pathToElm, args);
    Join([Str("Running"), pathToElm] + args, " ")
  }

  lemma RunningHead(pathToElm: JsValue, args: seq<JsValue>)
    ensures StartsWith(Join([Str("Running"), pathToElm] + args, " "), "Running ")
    ensures !Nullish(pathToElm) ==>
              StartsWith(Join([Str("Running"), pathToElm] + args, " "), "Running " + JsToString(pathToElm))
  {
    var items := [Str("Running"), pathToElm] + args;
    JoinHead(items, " ");
    assert items[1..] == [pathToElm] + args;
    if !Nullish(pathToElm) {
      var p := JsToString(pathToElm);
      JoinHead(items[1..], " ");
      var tail := Join(items[1..], " ");
      assert StartsWith(tail, p) by {
        assert tail[..|p|] == (p + (if |items[1..]| > 1 then " " else ""))[..|p|];
      }
      assert Join(items, " ") == "Running " + tail;
      assert ("Running " + tail)[..|"Running " + p|] == "Running " + p;
    }
  }

  /** The line logged for an unsuccessful exit, `console.log("failure", code)`. */
  function FailureLine(code: int): string {
    "failure " + IntToDecimal(code)
  }

  /** The failure line determines the exit code it reports. */
  lemma FailureLineCode(a: int, b: int)
    ensures FailureLine(a) == FailureLine(b) <==> a == b
  {
    MiddleDetermined("failure ", IntToDecimal(a), IntToDecimal(b), "");
    assert FailureLine(a) == "failure " + IntToDecimal(a) + "";
    assert FailureLine(b) == "failure " + IntToDecimal(b) + "";
    IntToDecimalInjective(a, b);
  }

  /** `Deno.readFile`: a missing file is a `NotFound` error. */
  function ReadFile(world: World, path: string): (r: Completion<string>)
    ensures r.Normal? <==> path in world.files
    ensures r.Normal? ==> r.value == world.files[path]
  {
    if path in world.files then Normal(world.files[path])
    else Throws(Error("NotFound", "No such file or directory: " + path, []))
  }

  /** `path.join(dir, name)` without normalisation: a name that is not a
      string is refused. */
  function JoinPath(dir: string, name: JsValue): (r: Completion<string>)
    ensures r.Normal? <==> name.Str?
    ensures r.Normal? ==> StartsWith(r.value, dir + "/") && EndsWith(r.value, name.s)
  {
    if name.Str? then
      var p := dir + "/" + name.s;
      assert p[..|dir + "/"|] == dir + "/";
      assert p[|p| - |name.s|..] == name.s;
      Normal(p)
    else Throws(Error("TypeError", "Path must be a string. Received " + JsToString(name), []))
  }

  /** What `buildElmProcess` hands to `options.run`, or what it throws before calling it. */
  function LaunchRequest(sources: JsValue, options: Bag<JsValue>, pathToElm: JsValue, inherited: Bag<string>)
    : (r: Completion<Bag<JsValue>>)
    ensures TypeOf(Field(options, "run")) != "function" ==> r == Throws(Str(RunCheckMessage(Field(options, "run"))))
    ensures TypeOf(Field(options, "run")) == "function" ==>
              (r.Normal? <==> PrepareProcessArgs(sources, options).Normal?)
    ensures TypeOf(Field(options, "run")) == "function" && r.Throws? ==>
              r.exc == PrepareProcessArgs(sources, options).exc
    ensures r.Normal? ==>
              Lookup(r.value, "cmd") == Some(Arr([pathToElm] + PrepareProcessArgs(sources, options).value))
    ensures r.Normal? ==>
              forall k :: k != "cmd" ==> Lookup(r.value, k) == Lookup(PrepareProcessOpts(options, inherited), k)
  {
    var run := Field(options, "run");
    if TypeOf(run) != "function" then Throws(Str(RunCheckMessage(run)))
    else
      match PrepareProcessArgs(sources, options)
      case Throws(e) => Throws(e)
      case Normal(args) => Normal(RunOptions(PrepareProcessOpts(options, inherited), pathToElm, args))
  }

  /** What `buildElmProcess` logs before spawning. */
  function LaunchLog(sources: JsValue, options: Bag<JsValue>, pathToElm: JsValue): (r: seq<string>)
    requires PrepareProcessArgs(sources, options).Normal?
  {
    if Truthy(Field(options, "verbose")) then [CommandLine(pathToElm, PrepareProcessArgs(sources, options).value)]
    else []
  }

  /** `verbose` logs exactly one line, and only then; it is the command
      line, which opens with `Running `. */
  lemma VerboseLogLine(sources: JsValue, options: Bag<JsValue>, pathToElm: JsValue)
    requires PrepareProcessArgs(sources, options).Normal?
    ensures var log := LaunchLog(sources, options, pathToElm);
      && |log| <= 1
      && (log != [] <==> Truthy(Field(options, "verbose")))
      && forall line :: line in log ==> StartsWith(line, "Running ")
  {
  }

  /** `buildElmProcess`: check `run`, build the arguments and the process
      options, log the command line when verbose, then call `run`. Nothing is
      logged or spawned when a check fails. */
  method BuildElmProcess(sources: JsValue, options: Bag<JsValue>, pathToElm: JsValue, world: World)
    returns (request: Option<Bag<JsValue>>, thrown: Option<JsValue>, log: seq<string>)
    ensures var launch := LaunchRequest(sources, options, pathToElm, world.inherited);
      && (launch.Throws? ==> request == None && thrown == Some(launch.exc) && log == [])
      && (launch.Normal? ==> request == Some(launch.value) && thrown == world.spawnError
                             && log == LaunchLog(sources, options, pathToElm))
  {
    log := [];
    var run := Field(options, "run");
    if TypeOf(run) != "function" {
      return None, Some(Str(RunCheckMessage(run))), log;
    }
    var processArgs := PrepareProcessArgs(sources, options);
    if processArgs.Throws? {
      return None, Some(processArgs.exc), log;
    }
    var processOpts := PrepareProcessOpts(options, world.inherited);
    if Truthy(Field(options, "verbose")) {
      log := log + [CommandLine(pathToElm, processArgs.value)];
    }
    request := Some(RunOptions(processOpts, pathToElm, processArgs.value));
    thrown := world.spawnError;
  }

  /** `compile`. Everything up to and including the spawn happens outside the
      `try`, so those exceptions reach the caller unchanged; the process is
      closed exactly when it was spawned; a failed status is turned into a
      message by `compilerErrorToString`. */
  method Compile(sources: JsValue, options: JsValue, world: World)
    returns (result: Completion<JsValue>, request: Option<Bag<JsValue>>, log: seq<string>, ghost closed: bool)
    ensures var merged := PrepareOptions(options);
            var launch := LaunchRequest(sources, merged, Field(merged, "pathToElm"), world.inherited);
      && (launch.Throws? ==> result == Throws(launch.exc) && request == None && log == [])
      && (launch.Normal? ==> request == Some(launch.value)
                             && log == LaunchLog(sources, merged, Field(merged, "pathToElm")))
    ensures closed <==> request.Some? && world.spawnError.None?
    ensures request.Some? && world.spawnError.Some? ==> result == Throws(world.spawnError.value)
    ensures result.Normal? <==> closed && world.status.Exited? && world.status.success
    ensures result.Normal? ==> result.value == Undefined
    ensures closed && world.status.Exited? && !world.status.success ==>
              result == Throws(Str(GenericMessage(Field(PrepareOptions(options), "pathToElm"))))
              && StartsWith(result.exc.s, GenericOpening)
    ensures closed && world.status.StatusFailed? && !world.status.error.Null? ==>
              result == Throws(Str(CompilerErrorToString(world.status.error, Field(PrepareOptions(options), "pathToElm")).value))
    ensures closed && world.status.StatusFailed? && world.status.error.Null? ==>
              result == Throws(CompilerErrorToString(world.status.error, Field(PrepareOptions(options), "pathToElm")).exc)
  {
    var merged := PrepareOptions(options);
    var pathToElm := Field(merged, "pathToElm");
    var thrown;
    request, thrown, log := BuildElmProcess(sources, merged, pathToElm, world);
    closed := false;
    if thrown.Some? {
      return Throws(thrown.value), request, log, closed;
    }
    // try
    var caught: Option<JsValue> := None;
    match world.status {
      case StatusFailed(e) =>
        caught := Some(e);
      case Exited(success, code) =>
        if !success {
          caught := Some(Obj([("code", Num(code))]));
          ExitCodeGivesGenericMessage(code, pathToElm);
        }
    }
    // catch
    if caught.Some? {
      match CompilerErrorToString(caught.value, pathToElm)
      case Normal(message) => result := Throws(Str(message));
      case Throws(e) => result := Throws(e);
    } else {
      result := Normal(Undefined);
    }
    // finally
    closed := true;
  }

  /** The `output` `compileToString` starts from: the caller's, or `elm.js`. */
  function RequestedOutput(options: JsValue): (r: JsValue)
    ensures Truthy(r)
    ensures var given := LastLookup(OwnEntries(options), "output");
      r == if given.Some? && Truthy(given.value) then given.value else Str("elm.js")
  {
    SpreadLookup([], OwnEntries(options), "output");
    Or(Field(Spread([], OwnEntries(options)), "output"), Str("elm.js"))
  }

  /** Where `compileToString` has the compiler write: the requested output
      inside the temporary directory, `elm.js` there when the caller asked
      for none; an output that is not a string is refused. */
  function TempOutputPath(options: JsValue, tempDir: string): (r: Completion<string>)
    ensures r.Normal? <==> RequestedOutput(options).Str?
    ensures r.Normal? ==> StartsWith(r.value, tempDir + "/") && EndsWith(r.value, RequestedOutput(options).s)
    ensures LastLookup(OwnEntries(options), "output") == None ==> r == Normal(tempDir + "/elm.js")
  {
    assert tempDir + "/" + "elm.js" == tempDir + "/elm.js";
    JoinPath(tempDir, RequestedOutput(options))
  }

  /** `internalOptions` once `compileToString` has assigned its `output` and
      `processOpts`. */
  function CapturedOptions(options: JsValue, tempDir: string): (r: Completion<Bag<JsValue>>)
    ensures r.Normal? <==> TempOutputPath(options, tempDir).Normal?
    ensures r.Normal? ==> UniqueKeys(r.value)
    ensures r.Normal? ==> Lookup(r.value, "output") == Some(Str(TempOutputPath(options, tempDir).value))
    ensures r.Normal? ==> Lookup(r.value, "processOpts") == Some(StdoutStderrPiped)
    ensures r.Normal? ==> forall k :: k != "output" && k != "processOpts" ==>
              Lookup(r.value, k) == LastLookup(OwnEntries(options), k)
  {
    var copy := Spread([], OwnEntries(options));
    match JoinPath(tempDir, Or(Field(copy, "output"), Str("elm.js")))
    case Throws(e) => Throws(e)
    case Normal(p) =>
      var withOutput := Put(copy, "output", Str(p));
      var r := Put(withOutput, "processOpts", StdoutStderrPiped);
      SpreadUnique([], OwnEntries(options));
      PutUnique(copy, "output", Str(p));
      PutUnique(withOutput, "processOpts", StdoutStderrPiped);
      forall k ensures Lookup(r, k) == if k == "processOpts" then Some(StdoutStderrPiped)
                                       else if k == "output" then Some(Str(p))
                                       else LastLookup(OwnEntries(options), k) {
        PutLookup(withOutput, "processOpts", StdoutStderrPiped, k);
        PutLookup(copy, "output", Str(p), k);
        SpreadLookup([], OwnEntries(options), k);
      }
      Normal(r)
  }

  /** The options `compileToString` runs the compiler with. */
  function CapturedMerge(options: JsValue, tempDir: string): Bag<JsValue>
    requires CapturedOptions(options, tempDir).Normal?
  {
    PrepareOptions(Obj(CapturedOptions(options, tempDir).value))
  }

  /** `compileToString`: the caller's options are copied, `output` is moved
      into a fresh temporary directory and stdout/stderr are piped. Text on
      stderr is thrown as it is, before the process is closed and before the
      temporary directory is removed; an unsuccessful exit with empty stderr
      is only logged; the output file is read after closing, and the
      directory is removed only once that read has succeeded. */
  method CompileToString(sources: JsValue, options: JsValue, world: World)
    returns (result: Completion<string>, request: Option<Bag<JsValue>>, log: seq<string>,
             ghost closed: bool, ghost tempRemoved: bool)
    ensures var captured := CapturedOptions(options, world.tempDir);
      captured.Throws? ==> result == Throws(captured.exc) && request == None && log == [] && !closed && !tempRemoved
    ensures CapturedOptions(options, world.tempDir).Normal? ==>
              CapturedRun(sources, CapturedMerge(options, world.tempDir), TempOutputPath(options, world.tempDir).value,
                          world, result, request, log, closed, tempRemoved)
  {
    request, log, closed, tempRemoved := None, [], false, false;
    var internal := Spread([], OwnEntries(options));
    var output := JoinPath(world.tempDir, Or(Field(internal, "output"), Str("elm.js")));
    if output.Throws? {
      return Throws(output.exc), request, log, closed, tempRemoved;
    }
    CapturedAssignments(options, world.tempDir, output.value);
    internal := Put(internal, "output", Str(output.value));
    internal := Put(internal, "processOpts", StdoutStderrPiped);
    var merged := PrepareOptions(Obj(internal));
    MergedOutput(options, world.tempDir);
    result, request, log, closed, tempRemoved := RunToFile(sources, merged, output.value, world);
  }

  /** The outcome of the part of `compileToString` after the options are
      prepared, with `merged` the options and `path` the output file. */
  predicate CapturedRun(sources: JsValue, merged: Bag<JsValue>, path: string, world: World,
                        result: Completion<string>, request: Option<Bag<JsValue>>, log: seq<string>,
                        closed: bool, tempRemoved: bool)
  {
    var launch := LaunchRequest(sources, merged, Field(merged, "pathToElm"), world.inherited);
    && (launch.Throws? ==> result == Throws(launch.exc) && request == None && log == [])
    && (launch.Normal? ==> request == Some(launch.value)
                           && log == LaunchLog(sources, merged, Field(merged, "pathToElm"))
                                     + (if world.spawnError.None? && world.stderr == "" && world.status.Exited? && !world.status.success
                                        then [FailureLine(world.status.code)] else []))
    && (request.Some? && world.spawnError.Some? ==> result == Throws(world.spawnError.value))
    && (request.Some? && world.spawnError.None? && world.stderr != "" ==> result == Throws(Str(world.stderr)))
    && (request.Some? && world.spawnError.None? && world.stderr == "" && world.status.StatusFailed? ==>
          result == Throws(world.status.error))
    && (closed <==> request.Some? && world.spawnError.None? && world.stderr == "" && world.status.Exited?)
    && (tempRemoved <==> closed && path in world.files)
    && (closed ==> result == ReadFile(world, path))
    && (result.Normal? <==> tempRemoved)
  }

  /** Spawn, drain stderr, wait for the status, close, read the output file
      and remove the temporary directory, stopping at the first failure. */
  method RunToFile(sources: JsValue, merged: Bag<JsValue>, path: string, world: World)
    returns (result: Completion<string>, request: Option<Bag<JsValue>>, log: seq<string>,
             ghost closed: bool, ghost tempRemoved: bool)
    requires Field(merged, "output") == Str(path)
    ensures CapturedRun(sources, merged, path, world, result, request, log, closed, tempRemoved)
  {
    closed, tempRemoved := false, false;
    var pathToElm := Field(merged, "pathToElm");
    var thrown;
    request, thrown, log := BuildElmProcess(sources, merged, pathToElm, world);
    if thrown.Some? {
      return Throws(thrown.value), request, log, closed, tempRemoved;
    }
    if world.stderr != "" {
      return Throws(Str(world.stderr)), request, log, closed, tempRemoved;
    }
    match world.status {
      case StatusFailed(e) =>
        return Throws(e), request, log, closed, tempRemoved;
      case Exited(success, code) =>
        if !success {
          log := log + [FailureLine(code)];
        }
    }
    closed := true;
    var data := ReadFile(world, Field(merged, "output").s);
    if data.Throws? {
      return Throws(data.exc), request, log, closed, tempRemoved;
    }
    tempRemoved := true;
    result := Normal(data.value);
  }

  /** After the merge with the defaults, `output` is the temporary path. */
  lemma MergedOutput(options: JsValue, tempDir: string)
    requires CapturedOptions(options, tempDir).Normal?
    ensures Field(CapturedMerge(options, tempDir), "output") == Str(TempOutputPath(options, tempDir).value)
  {
    var c := CapturedOptions(options, tempDir).value;
    UniqueLastLookup(c, "output");
  }

  /** Under `compileToString` the compiler's stdout and stderr are piped,
      whatever `processOpts` the caller gave; the environment, stdio and
      working directory are the usual ones. */
  lemma CapturedStdio(sources: JsValue, options: JsValue, tempDir: string, inherited: Bag<string>)
    requires CapturedOptions(options, tempDir).Normal?
    ensures var merged := CapturedMerge(options, tempDir);
            var launch := LaunchRequest(sources, merged, Field(merged, "pathToElm"), inherited);
      launch.Normal? ==>
        && Lookup(launch.value, "stdout") == Some(Str("piped"))
        && Lookup(launch.value, "stderr") == Some(Str("piped"))
        && Lookup(launch.value, "stdio") == Some(Str("inherit"))
        && Lookup(launch.value, "env") == Some(Obj(ProcessEnv(inherited)))
        && Lookup(launch.value, "cwd") == Some(Field(merged, "cwd"))
  {
    var c := CapturedOptions(options, tempDir).value;
    var merged := CapturedMerge(options, tempDir);
    UniqueLastLookup(c, "processOpts");
    assert Field(merged, "processOpts") == StdoutStderrPiped;
    PipedLaunch(sources, merged, inherited);
  }

  lemma PipedLaunch(sources: JsValue, merged: Bag<JsValue>, inherited: Bag<string>)
    requires Field(merged, "processOpts") == StdoutStderrPiped
    ensures var launch := LaunchRequest(sources, merged, Field(merged, "pathToElm"), inherited);
      launch.Normal? ==>
        && Lookup(launch.value, "stdout") == Some(Str("piped"))
        && Lookup(launch.value, "stderr") == Some(Str("piped"))
        && Lookup(launch.value, "stdio") == Some(Str("inherit"))
        && Lookup(launch.value, "env") == Some(Obj(ProcessEnv(inherited)))
        && Lookup(launch.value, "cwd") == Some(Field(merged, "cwd"))
  {
    PipedLayers(merged, inherited);
  }

  lemma PipedLayers(merged: Bag<JsValue>, inherited: Bag<string>)
    requires Field(merged, "processOpts") == StdoutStderrPiped
    ensures var po := PrepareProcessOpts(merged, inherited);
      && Lookup(po, "stdout") == Some(Str("piped"))
      && Lookup(po, "stderr") == Some(Str("piped"))
      && Lookup(po, "stdio") == Some(Str("inherit"))
      && Lookup(po, "env") == Some(Obj(ProcessEnv(inherited)))
      && Lookup(po, "cwd") == Some(Field(merged, "cwd"))
  {
    var po := OwnEntries(Field(merged, "processOpts"));
    assert po == [("stdout", Str("piped")), ("stderr", Str("piped"))];
    assert LastLookup(po, "stdout") == Some(Str("piped")) && LastLookup(po, "stderr") == Some(Str("piped"));
    assert LastLookup(po, "stdio") == None && LastLookup(po, "env") == None && LastLookup(po, "cwd") == None;
    ProcessOptsLayers(merged, inherited);
  }

  /** Under `compileToString` the compiler is told to write to the temporary
      path: `--output` and that path follow the mode and help tokens. `c` is
      the captured options object and `p` the temporary output path. */
  lemma CapturedOutputFlag(options: JsValue, tempDir: string, c: Bag<JsValue>, p: string)
    requires CapturedOptions(options, tempDir) == Normal(c)
    requires TempOutputPath(options, tempDir) == Normal(p)
    requires CompilerArgsFromOptions(PrepareOptions(Obj(c))).Normal?
    ensures var merged := PrepareOptions(Obj(c));
            var args := CompilerArgsFromOptions(merged).value;
            var i := |Emit(merged, "mode") + Emit(merged, "help")|;
      i + 2 <= |args| && args[i..i + 2] == [Str("--output"), Str(p)]
  {
    OutputFlagUnder(c, p, tempDir);
  }

  /** An options copy whose `output` is a path under a directory passes
      that path to the compiler. */
  lemma OutputFlagUnder(c: Bag<JsValue>, p: string, dir: string)
    requires UniqueKeys(c) && Lookup(c, "output") == Some(Str(p)) && StartsWith(p, dir + "/")
    requires CompilerArgsFromOptions(PrepareOptions(Obj(c))).Normal?
    ensures var merged := PrepareOptions(Obj(c));
            var args := CompilerArgsFromOptions(merged).value;
            var i := |Emit(merged, "mode") + Emit(merged, "help")|;
      i + 2 <= |args| && args[i..i + 2] == [Str("--output"), Str(p)]
  {
    UniqueLastLookup(c, "output");
    OutputFlagOf(Obj(c), p);
  }

  lemma OutputFlagOf(options: JsValue, p: string)
    requires Field(PrepareOptions(options), "output") == Str(p) && |p| > 0
    requires CompilerArgsFromOptions(PrepareOptions(options)).Normal?
    ensures var merged := PrepareOptions(options);
            var args := CompilerArgsFromOptions(merged).value;
            var i := |Emit(merged, "mode") + Emit(merged, "help")|;
      i + 2 <= |args| && args[i..i + 2] == [Str("--output"), Str(p)]
  {
    OutputFlagPassed(options);
  }

  /** The two assignments to the copy of the caller's options give the captured options. */
  lemma CapturedAssignments(options: JsValue, tempDir: string, p: string)
    requires TempOutputPath(options, tempDir) == Normal(p)
    ensures CapturedOptions(options, tempDir)
              == Normal(Put(Put(Spread([], OwnEntries(options)), "output", Str(p)), "processOpts", StdoutStderrPiped))
  {
  }

  /** `options?.output || "elm.js"`, the path `compileToModuleString` and
      `compileToModule` use. */
  function ModuleOutput(options: JsValue): (r: JsValue)
    ensures Truthy(r)
  {
    Or(OptionalProperty(options, "output"), Str("elm.js"))
  }

  /** For an options object with distinct keys, the module path is the
      output that `compileToString` is asked for and joins to the temporary
      directory, so the file written is named as the one compiled. */
  lemma ModuleOutputAgrees(options: JsValue)
    requires UniqueKeys(OwnEntries(options))
    ensures ModuleOutput(options) == RequestedOutput(options)
  {
    UniqueLastLookup(OwnEntries(options), "output");
    SpreadLookup([], OwnEntries(options), "output");
  }

  /** `{ ...options, output: outputPath }` */
  function ModuleOptions(options: JsValue): JsValue {
    Obj(Put(Spread([], OwnEntries(options)), "output", ModuleOutput(options)))
  }

  /** The options `compileToModuleString` passes on ask for its own output path. */
  lemma ModuleOptionsOutput(options: JsValue)
    ensures RequestedOutput(ModuleOptions(options)) == ModuleOutput(options)
  {
    var copy := Spread([], OwnEntries(options));
    var inner := Put(copy, "output", ModuleOutput(options));
    SpreadUnique([], OwnEntries(options));
    PutUnique(copy, "output", ModuleOutput(options));
    SpreadLookup([], inner, "output");
    UniqueLastLookup(inner, "output");
    PutLookup(copy, "output", ModuleOutput(options), "output");
  }

  /** `compileToModuleString`: the compiled script of `compileToString`, run
      with `output` set to the module's path, rewritten into a module.
      `compiled` is what that `compileToString` run gave: it fails exactly
      as that run does, and otherwise its text is rewritten. */
  method CompileToModuleString(sources: JsValue, options: JsValue, world: World)
    returns (result: Completion<string>, request: Option<Bag<JsValue>>, log: seq<string>,
             ghost compiled: Completion<string>, ghost closed: bool, ghost tempRemoved: bool)
    ensures var inner := ModuleOptions(options);
            var captured := CapturedOptions(inner, world.tempDir);
      && (captured.Throws? ==> compiled == Throws(captured.exc) && request == None && log == [] && !closed && !tempRemoved)
      && (captured.Normal? ==>
            CapturedRun(sources, CapturedMerge(inner, world.tempDir), TempOutputPath(inner, world.tempDir).value,
                        world, compiled, request, log, closed, tempRemoved))
    ensures result == if compiled.Normal? then Normal(ToModuleText(compiled.value)) else compiled
    ensures result.Normal? ==>
              var path := JoinPath(world.tempDir, ModuleOutput(options));
              path.Normal? && path.value in world.files
              && result.value == ToModuleText(world.files[path.value])
    ensures result.Normal? ==> EndsWith(result.value, ModuleSuffix)
  {
    var inner := ModuleOptions(options);
    var c;
    c, request, log, closed, tempRemoved := CompileToString(sources, inner, world);
    compiled := c;
    if c.Throws? {
      return Throws(c.exc), request, log, compiled, closed, tempRemoved;
    }
    ModuleOptionsOutput(options);
    result := Normal(ToModuleText(c.value));
  }

  /** `compileToModule`: the module text is written to `options?.output`,
      or `elm.js`; `written` is the path and text of that write, made
      exactly when the `compileToString` run behind it succeeds, and
      `request` the launch of that run. */
  method CompileToModule(sources: JsValue, options: JsValue, world: World)
    returns (result: Completion<JsValue>, written: Option<(string, string)>,
             request: Option<Bag<JsValue>>, log: seq<string>,
             ghost compiled: Completion<string>, ghost closed: bool, ghost tempRemoved: bool)
    ensures var inner := ModuleOptions(options);
            var captured := CapturedOptions(inner, world.tempDir);
      && (captured.Throws? ==> compiled == Throws(captured.exc) && request == None && log == [] && !closed && !tempRemoved)
      && (captured.Normal? ==>
            CapturedRun(sources, CapturedMerge(inner, world.tempDir), TempOutputPath(inner, world.tempDir).value,
                        world, compiled, request, log, closed, tempRemoved))
    ensures compiled.Normal? ==>
              && result == Normal(Undefined) && ModuleOutput(options).Str?
              && written == Some((ModuleOutput(options).s, ToModuleText(compiled.value)))
    ensures compiled.Throws? ==> result == Throws(compiled.exc) && written == None
    ensures written.Some? <==> tempRemoved
    ensures written.Some? ==>
              var path := JoinPath(world.tempDir, ModuleOutput(options));
              && ModuleOutput(options) == Str(written.value.0)
              && path.Normal? && path.value in world.files
              && written.value.1 == ToModuleText(world.files[path.value])
  {
    var outputPath := ModuleOutput(options);
    var text;
    text, request, log, compiled, closed, tempRemoved := CompileToModuleString(sources, options, world);
    if text.Throws? {
      return Throws(text.exc), None, request, log, compiled, closed, tempRemoved;
    }
    written := Some((outputPath.s, text.value));
    result := Normal(Undefined);
  }
}
