# deno_elm_compiler in Dafny

A model of `compiler.ts` from deno_elm_compiler, the Deno wrapper around the
`elm make` executable. The wrapper does four things:

- it turns a sources argument and a dynamic options bag into the argument
  vector `make <sources…> <flags…>`;
- it layers the process-launch options (environment, stdio, working
  directory, the caller's `processOpts`);
- it turns a failure of the running compiler into a message;
- it drives one compiler run in one of four modes: `compile`,
  `compileToString`, `compileToModuleString` and `compileToModule`.

The modules follow those concerns:

- `Bags`: JavaScript objects as ordered `(key, value)` lists. Property
  assignment is `Put`: an existing key keeps its place, a new key goes at the
  end. Object spread is `Spread`, a left fold of `Put`. `LastLookup` and
  `Override` are reference definitions used to state what a spread gives.
- `JsValues`: the JavaScript values the wrapper handles, with the language
  operations it applies to them. These are truthiness, `typeof`, property
  reads, own enumerable entries, `String(v)` and `JSON.stringify` of a string.
  A `Completion` is a normal value or a thrown one.
- `Text`: `indexOf` and the first-occurrence `String.prototype.replace`.
- `CompilerArgs`: the default options and `prepareSources`, `prepareOptions`,
  `compilerArgsFromOptions` and `prepareProcessArgs`.
- `ProcessOptions`: `prepareProcessOpts` and the object handed to `run`.
- `CompilerErrors`: `compilerErrorToString`, with a classification of thrown
  values and of messages.
- `ModuleRewrite`: the text rewrite of `compileToModuleString`.
- `Drivers`: `buildElmProcess` and the four drivers, as methods that step
  through spawn, stderr, status, close, read and remove.

The outside world is a `World` value. It holds everything Deno answers:
- the inherited environment;
- what spawning throws;
- the captured stderr;
- the exit status;
- the temporary directory;
- the files present after the compiler has run.

The ghost out-parameters `closed` and `tempRemoved` record which clean-up
steps ran.

Some behaviour of `compiler.ts` that the model keeps as written:

- `compilerArgsFromOptions` walks the merged options in the key order of
  `defaultOptions`. The mode token (`--debug` or `--optimize`) is therefore
  the first flag token, ahead of `--help`, `--output` and `--report`.
- A truthy `mode` other than `debug`, `optimize` and `no_mode` falls through
  the `switch` into the `docs` case and yields `--docs <mode>`.
- In `compile`, `buildElmProcess` runs outside the `try`. An exception
  thrown by spawning (a missing binary, say) reaches the caller unchanged and
  is not turned into the "Could not find Elm compiler" message. Only a failed
  `status()` or a nonzero exit goes through `compilerErrorToString`.
- The permission-denied message has an unmatched `"` after the path.

## Model

| member | source | states |
|---|---|---|
| `CompilerArgs.SingleSourceIsOneElementArray` | compiler.ts:53 | a single string source builds the same vector, or the same error, as the one-element array holding it |
| `CompilerArgs.SourcesCheckedFirst` | compiler.ts:64-66 | a sources argument that is neither a string nor an array throws the fixed sources message, whatever the options |
| `CompilerArgs.PrepareOptions` | compiler.ts:56-62 | each option has the last value the caller gave it, or else its default; the keys are the default keys in declared order, then the caller's other keys in first-given order, with no key twice |
| `CompilerArgs.OptionTokens` | compiler.ts:218-266 | one entry throws exactly when its value is truthy and its key is neither a `switch` case nor a supported key; it then throws the `Error` with the message for that key |
| `CompilerArgs.UnsupportedMessage` | compiler.ts:241-259 | every rejection message opens with `deno-elm-compiler `; for a key other than `yes`, `warn` and `pathToMake` it ends with the key |
| `CompilerArgs.CompilerArgsFromOptions` | compiler.ts:216-268 | building the flags throws exactly when some entry is rejected, and then with the `Error` for the first rejected key |
| `CompilerArgs.ArgsAppend` | compiler.ts:216-217 | the tokens of two consecutive runs of entries are the tokens of the first followed by those of the second, and the first exception wins |
| `CompilerArgs.FalsyEntriesIgnored` | compiler.ts:264-266 | entries with falsy values change nothing, whatever their key: the tokens are those of the truthy entries alone |
| `CompilerArgs.TruthyEntries` | compiler.ts:218 | the kept entries are entries of the input, and each has a truthy value |
| `CompilerArgs.RuntimeOptionsWrapped` | compiler.ts:238-239 | a truthy `runtimeOptions` value is emitted between `+RTS` and `-RTS` |
| `CompilerArgs.NonFlagOptionsSilent` | compiler.ts:240-262 | the supported keys that are not flags (`run`, `pathToElm`, `cwd`, `verbose`, `processOpts`) emit nothing, whatever their value |
| `CompilerArgs.SupportedOptionsList` | compiler.ts:34-46 | the supported keys are the ten default keys in their declared order |
| `CompilerArgs.ModeTokens` | compiler.ts:226-237 | `debug` gives `--debug`, `optimize` gives `--optimize`, `no_mode` or a falsy mode gives nothing, and any other truthy mode falls through to `--docs <mode>` |
| `CompilerArgs.ModeFlagCount` | compiler.ts:226-234 | when no option value is itself a mode flag, `--debug` occurs once if the mode is `debug` and never otherwise, and the same holds for `--optimize` |
| `CompilerArgs.FlagOrder` | compiler.ts:216-239 | whatever order the caller used, the flag tokens are the mode token, `--help`, `--output v`, `--report v`, `--docs v`, then the tokens of the caller's extra keys |
| `CompilerArgs.OutputFlagPassed` | compiler.ts:222-223 | a truthy `output` appears as `--output` followed by its value, right after the mode and help tokens |
| `CompilerArgs.ProcessArgsLayout` | compiler.ts:64-71 | for valid sources the vector is `make`, the sources, the mode, help, output, report and docs tokens, then the tokens of the caller's extra keys; it fails exactly as those extra tokens do |
| `ProcessOptions.EnvObject` | compiler.ts:76 | the environment object has the inherited variables' keys, each with its inherited value as a string |
| `ProcessOptions.PrepareProcessOpts` | compiler.ts:73-84 | each launch option is the caller's `processOpts` field if one is given, and otherwise the base layer's value |
| `ProcessOptions.RunOptions` | compiler.ts:102-105 | `cmd` is always the binary followed by the argument vector; every other key keeps its process-option value |
| `ProcessOptions.ProcessEnv` | compiler.ts:74-77 | `LANG` is `en_US.UTF-8` only when nothing is inherited under `LANG`, and an inherited `LANG` wins; every other inherited variable passes through with its inherited value |
| `ProcessOptions.BaseLayerFields` | compiler.ts:78-81 | under the caller's `processOpts` lie exactly `env`, `stdio` and `cwd`, holding the environment, `inherit` and `options.cwd` |
| `ProcessOptions.ProcessOptsLayers` | compiler.ts:78-83 | `env`, `stdio` and `cwd` are the caller's `processOpts` fields when present, else the environment above, `inherit` and `options.cwd` |
| `ProcessOptions.NoProcessOpts` | compiler.ts:78-83 | without `processOpts` entries the launcher gets exactly `env`, `stdio` and `cwd` |
| `CompilerErrors.GenericMessage` | compiler.ts:123-125 | the fallback message opens with the fixed text "Exception thrown when attempting to run Elm compiler " |
| `CompilerErrors.StringifyPath` | compiler.ts:123-125 | a string path is wrapped in double quotes, and one that needs no escaping appears unchanged between them |
| `CompilerErrors.CompilerErrorToString` | compiler.ts:108-127 | it throws exactly for `null`; a string `code` of ENOENT or EACCES gives the not-found or permission message around the path; another string `code` gives the generic-error text with the path and `String(err)`; a string `message` gives that message quoted; anything else gives the fallback message |
| `CompilerErrors.MessageDeterminesClass` | compiler.ts:108-127 | the message's opening words announce its class: a string `code` of ENOENT, of EACCES or of anything else; then a string `message`; then none. The five shapes cannot be mistaken for one another |
| `CompilerErrors.NotFoundClass` | compiler.ts:111-112 | the ENOENT message reads as a missing binary, whatever the path |
| `CompilerErrors.DeniedClass` | compiler.ts:114-115 | the EACCES message reads as a permission failure, whatever the path |
| `CompilerErrors.OtherClass` | compiler.ts:117-118 | a message for another string code reads as neither of the two above |
| `CompilerErrors.DescribedClass` | compiler.ts:120-121 | a quoted `message` reads as none of the code messages |
| `CompilerErrors.GenericClass` | compiler.ts:122-125 | the fallback message reads as none of the other shapes |
| `CompilerErrors.CodedMessagesNamePath` | compiler.ts:109-119 | every message for a string `code` contains the configured binary path |
| `CompilerErrors.ExitCodeGivesGenericMessage` | compiler.ts:136-140 | the `{ code }` thrown on a nonzero exit always gets the fallback message, which starts with the text the tests look for |
| `CompilerErrors.GenericMessageOpening` | compiler.ts:123-125 | the fallback message starts with "Exception thrown when attempting to run Elm compiler" |
| `CompilerErrors.DefaultGenericMessage` | compiler.ts:123-125 | with the default binary the fallback message ends in the quoted name `"elm"` |
| `ModuleRewrite.ToModuleText` | compiler.ts:202-211 | the module text always ends with the `moduleScope`/`init`/`export default moduleScope.Elm` suffix |
| `ModuleRewrite.NoWrapperKept` | compiler.ts:202-211 | text with neither pattern is kept as it is, followed by the suffix |
| `ModuleRewrite.WrappedScriptBecomesInitializer` | compiler.ts:202-204 | a script opening with `(function(scope){` becomes one opening with `function init(scope){`, and only its rest is searched for the closing pattern |
| `ModuleRewrite.WrappedScriptToModule` | compiler.ts:202-211 | a wrapped script whose first `;}(this));` closes the wrapper keeps its body and its trailing text between the initializer's header and `;}` |
| `Text.IndexOf` | compiler.ts:202-204 | the index is found exactly when the pattern occurs, and it is the first occurrence |
| `Text.ReplaceFirst` | compiler.ts:202-204 | without an occurrence the text is unchanged; otherwise only the first occurrence is replaced |
| `Text.ReplaceFirstAtStart` | compiler.ts:203 | a pattern at the very start is the occurrence that gets replaced |
| `Text.ReplaceFirstAfter` | compiler.ts:204 | a prefix that lacks the pattern's first character is skipped over, and the replacement happens in what follows |
| `Text.ReplaceTwiceAtStart` | compiler.ts:202-204 | when the first pattern opens the text and the second cannot start inside the first replacement, the two replacements act on disjoint parts |
| `Text.ReplaceAfterBody` | compiler.ts:204 | a pattern whose first occurrence follows `body` is replaced there, keeping `body` and the tail |
| `Bags.Lookup` | compiler.ts:109 | a property read finds a value exactly when the key is present, and that value is stored under the key |
| `Bags.Put` | compiler.ts:155-159 | an assignment adds one entry exactly when the key is new, and otherwise keeps the size |
| `Bags.PutKeys` | compiler.ts:155-159 | an assigned key keeps its place, and a new key goes at the end |
| `Bags.PutLookup` | compiler.ts:155-159 | after an assignment the key reads as the new value and every other key is unchanged |
| `Bags.PutUnique` | compiler.ts:155-159 | assignment never creates a duplicate key |
| `Bags.Spread` | compiler.ts:61 | a spread keeps the base object's keys as its first keys, in their places |
| `Bags.SpreadLookup` | compiler.ts:61 | after a spread a key reads as its last spread value, or else its value in the base object |
| `Bags.SpreadKeys` | compiler.ts:61 | a spread keeps the base keys in place and appends the new keys in first-given order |
| `Bags.SpreadUnique` | compiler.ts:61 | a spread over an object with unique keys keeps keys unique |
| `Bags.UniqueLastLookup` | compiler.ts:153 | in an object with unique keys the last value under a key is its only value |
| `JsValues.Property` | compiler.ts:109 | reading a property throws exactly on `null` and `undefined` |
| `JsValues.IndexedEntriesUnique` | compiler.ts:153 | spreading an array or a string gives one entry per element, keyed `"0"`, `"1"` and so on, with no key twice |
| `JsValues.NatToDecimal` | compiler.ts:175 | a numeral is a non-empty run of digits whose decimal value is the number, with no leading zero |
| `JsValues.IntToDecimalInjective` | compiler.ts:175 | different integers are printed differently |
| `JsValues.Quote` | compiler.ts:121 | `JSON.stringify` of a string is enclosed in double quotes |
| `JsValues.QuotePlain` | compiler.ts:121 | text needing no escapes is quoted unchanged |
| `Drivers.JoinPath` | compiler.ts:155-158 | joining succeeds exactly for a string name; the path lies under the directory and ends with the name |
| `Drivers.RunCheckNamesType` | compiler.ts:91-93 | two `run` values give the same message exactly when their `typeof` agrees |
| `Drivers.CommandLine` | compiler.ts:98-100 | the verbose line starts with `Running ` and, for a binary that is not nullish, with `Running ` and the binary |
| `Drivers.VerboseLogLine` | compiler.ts:98-100 | one line is logged when `verbose` is truthy and none otherwise, and it opens with `Running ` |
| `Drivers.FailureLineCode` | compiler.ts:174-176 | the logged failure line determines the exit code it reports |
| `Drivers.RequestedOutput` | compiler.ts:153-158 | the requested output is always truthy: the caller's last-given `output` when truthy, and `elm.js` otherwise |
| `Drivers.TempOutputPath` | compiler.ts:154-158 | the temporary output path exists exactly when the requested output is a string; it lies under the temporary directory and ends with that name; with no `output` given it is `elm.js` there |
| `Drivers.LaunchRequest` | compiler.ts:86-106 | a `run` that is not a function throws before anything is built; otherwise launching fails exactly when the arguments do; `cmd` is the binary followed by the arguments, and every other key is the prepared process option |
| `Drivers.BuildElmProcess` | compiler.ts:86-106 | nothing is logged or spawned when a check fails; otherwise the request is made, the verbose line is logged, and what the spawn throws is passed on |
| `Drivers.Compile` | compiler.ts:129-144 | launch failures propagate unchanged; the process is closed exactly when it was spawned; success means a successful exit; a nonzero exit throws the fallback message; a failed status throws its converted message, and a `null` rejection throws the `TypeError` from reading its `code` |
| `Drivers.CapturedOptions` | compiler.ts:153-159 | the captured options have unique keys, `output` is the temporary path, `processOpts` pipes stdout and stderr, and every other key keeps the caller's value |
| `Drivers.CompileToString` | compiler.ts:151-185 | non-empty stderr is thrown as it is, before close and removal; a nonzero exit with empty stderr is only logged; the result is the output file's contents; the directory is removed exactly when the result is returned |
| `Drivers.RunToFile` | compiler.ts:163-184 | spawn, stderr, status, close, read and remove, stopping at the first failure, with the same outcome as above |
| `Drivers.MergedOutput` | compiler.ts:161-179 | after the merge with the defaults, `output` is the temporary path the file is read from |
| `Drivers.CapturedStdio` | compiler.ts:159-163 | under `compileToString` stdout and stderr are piped whatever the caller's `processOpts`, and env, stdio and cwd are the usual ones |
| `Drivers.PipedLayers` | compiler.ts:78-83 | with piped `processOpts` the launch options keep the base env, stdio and cwd beside the two piped streams |
| `Drivers.CapturedOutputFlag` | compiler.ts:155-163 | the compiler is passed `--output` and the temporary path, after the mode and help tokens |
| `Drivers.CapturedAssignments` | compiler.ts:153-159 | the two assignments to the copy of the caller's options give the captured options |
| `Drivers.ModuleOutput` | compiler.ts:197 | the module's output path is always truthy |
| `Drivers.ModuleOutputAgrees` | compiler.ts:153-158 | for options with distinct keys, the module path is the output `compileToString` is asked for, so the file written carries the name of the file compiled in the temporary directory |
| `Drivers.ModuleOptionsOutput` | compiler.ts:197-201 | the options passed on to `compileToString` ask for the module's output path |
| `Drivers.CompileToModuleString` | compiler.ts:196-212 | it runs `compileToString` with `output` set to the module path and fails exactly as that run does; otherwise the result is the rewritten compiled file, ending with the module suffix, and the temporary directory was removed |
| `Drivers.CompileToModule` | compiler.ts:187-194 | it fails exactly as the `compileToString` run behind it does, and writes nothing then; otherwise it writes the rewritten compiled file to `options?.output` or `elm.js` and returns `undefined` |

## Left out

- Deno I/O is not performed. `Deno.run`, `process.status`, `stderrOutput`, `output`, `close`, `Deno.makeTempDir`, `readFile`, `writeFile`, `remove` and `Deno.env.toObject` are answered by the `World` value.
- Failures of `makeTempDir`, `stderrOutput`, `output`, `close`, `remove` and `writeFile` are not modelled; each is taken to succeed.
- Asynchrony: each driver runs as a straight sequence of steps, since there is one process per call.
- `console.log` output is kept only as the `log` sequence the drivers return.
- UTF-8 encoding and decoding are taken as the identity on strings.
- JoinPath: `path.join` is modelled as `dir + "/" + name`, without normalising `.`, `..` or repeated separators, and its error text is not Deno's.
- StringifyPath: `JSON.stringify` of a path that is not a string is modelled as `String(v)`; the declared type makes the path a string.
- ReadFile: the text of the `NotFound` error is not Deno's.
- Property: a read finds an object's own fields, and an `Error`'s own properties and its `message`. Getters, prototype chains and other built-in properties (`name`, `stack`, `length`) read as `undefined`.
- An object value is taken to have distinct keys, as every JavaScript object has. `Lookup` reads the first entry under a key and a spread keeps the last; the two agree on such objects.
- `Deno.env.toObject()` throws when the environment permission is missing. That failure is not modelled: the inherited environment is always available. In the code it would surface after the argument vector is built and before the verbose line is logged.
- Numbers are unbounded integers; fractions, `NaN` and infinities are not modelled. `String(n)` is always plain decimal, whereas JavaScript writes numbers from 1e21 up in exponent form (`1e+21`) and cannot hold integers above 2^53 exactly.
- JavaScript enumerates integer-like keys first, in ascending order. The model keeps insertion order for every key.
- ReplaceFirst: `$` patterns in the replacement text are not interpreted; the replacements used here contain none.
- CompileToModule: the write to `options?.output` is returned as `written` instead of being performed.
- The behaviour of a caller-supplied `run` (what it spawns, what it throws) comes from the `World`, not from the function.
