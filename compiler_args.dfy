/** Building the `elm make` argument vector from a sources argument and a
    bag of options: the defaults, `prepareSources`, `prepareOptions`,
    `compilerArgsFromOptions` and `prepareProcessArgs` of compiler.ts. */
module CompilerArgs {
  import opened Bags
  import opened JsValues
  import opened Text

  const ElmBinaryName := "elm"

  /** `defaultOptions`, in declaration order; `run` is `Deno.run`. */
  const DefaultOptions: Bag<JsValue> := [
    ("run", Func("Deno.run")),
    ("mode", Str("no_mode")),
    ("pathToElm", Str(ElmBinaryName)),
    ("cwd", Undefined),
    ("help", Undefined),
    ("output", Undefined),
    ("report", Undefined),
    ("verbose", Bool(false)),
    ("processOpts", Undefined),
    ("docs", Undefined)
  ]

  /** `Object.keys(defaultOptions)`, written out; `SupportedOptionsList`
      proves it is the defaults' key list. */
  const SupportedOptions: seq<string> :=
    ["run", "mode", "pathToElm", "cwd", "help", "output", "report", "verbose", "processOpts", "docs"]

  /** The keys the `switch` of `compilerArgsFromOptions` turns into tokens. */
  const FlagOptions: seq<string> := ["help", "output", "report", "mode", "docs", "runtimeOptions"]

  const SourcesMessage := "compile() received neither an Array nor a String for its sources argument."

  /** `prepareSources`: a string is a list of one source; anything but a
      string or an array is refused. */
  function PrepareSources(sources: JsValue): (r: Completion<seq<JsValue>>)
    ensures sources.Str? ==> r == Normal([sources])
    ensures sources.Arr? ==> r == Normal(sources.items)
    ensures !(sources.Str? || sources.Arr?) ==> r == Throws(Str(SourcesMessage))
  {
    match sources
    case Str(_) => Normal([sources])
    case Arr(items) => Normal(items)
    case _ => Throws(Str(SourcesMessage))
  }

  /** `prepareOptions`: no options (null or undefined) means the defaults;
      otherwise the caller's own entries are spread over the defaults. An
      option then has the last value the caller gave it, or else its
      default; the default keys come first in their declared order, then
      the caller's other keys in the order the caller first gave them. */
  function PrepareOptions(options: JsValue): (r: Bag<JsValue>)
    ensures forall k :: Lookup(r, k) == Override(LastLookup(OwnEntries(options), k), Lookup(DefaultOptions, k))
    ensures Keys(r) == SupportedOptions + Fresh(SupportedOptions, Keys(OwnEntries(options)))
    ensures UniqueKeys(r)
  {
    DefaultsUnique();
    SupportedOptionsList();
    if Nullish(options) then
      assert SupportedOptions + [] == SupportedOptions;
      DefaultOptions
    else
      var r := Spread(DefaultOptions, OwnEntries(options));
      SpreadKeys(DefaultOptions, OwnEntries(options));
      SpreadUnique(DefaultOptions, OwnEntries(options));
      forall k ensures Lookup(r, k) == Override(LastLookup(OwnEntries(options), k), Lookup(DefaultOptions, k)) {
        SpreadLookup(DefaultOptions, OwnEntries(options), k);
      }
      r
  }

  const WrapperName := "deno-elm-compiler "
  const UnknownDetail := "was given an unrecognized Elm compiler option: "

  /** The message of the `Error` thrown for a truthy option outside the
      supported set: it names the wrapper, and the message for a key that
      was never an option ends with that key. */
  function UnsupportedMessage(opt: string): (r: string)
    ensures StartsWith(r, WrapperName)
    ensures !Retired(opt) ==> EndsWith(r, opt)
  {
    if Retired(opt) then
      ConcatEnds(WrapperName, RetiredDetail(opt));
      WrapperName + RetiredDetail(opt)
    else
      ConcatEnds(WrapperName, UnknownDetail);
      ConcatEnds(WrapperName + UnknownDetail, opt);
      PrefixOfConcat(WrapperName + UnknownDetail, opt, WrapperName);
      WrapperName + UnknownDetail + opt
  }

  /** The keys Elm 0.19 removed (`yes`, `warn`) or renamed (`pathToMake`). */
  predicate Retired(opt: string) {
    opt == "yes" || opt == "warn" || opt == "pathToMake"
  }

  /** The rest of the message for a key that Elm 0.19 removed or renamed. */
  function RetiredDetail(opt: string): string {
    if opt == "yes" then
      "received the `yes` option, but that was removed in Elm 0.19. Try re-running without passing the `yes` option."
    else if opt == "warn" then
      "received the `warn` option, but that was removed in Elm 0.19. Try re-running without passing the `warn` option."
    else
      "received the `pathToMake` option, but that was renamed to `pathToElm` in Elm 0.19. Try re-running after renaming the parameter to `pathToElm`."
  }

  /** The callback of the `flatMap` in `compilerArgsFromOptions`, for one
      entry: a falsy value gives nothing, a key the `switch` names gives its
      tokens, an unsupported key throws. An entry throws exactly when it is
      rejected, with the message for its key. */
  function OptionTokens(opt: string, value: JsValue): (r: Completion<seq<JsValue>>)
    ensures r.Throws? <==> Rejected((opt, value))
    ensures Rejected((opt, value)) ==> r == Throws(Error("Error", UnsupportedMessage(opt), []))
  {
    if !Truthy(value) then Normal([])
    else if opt in FlagOptions then Normal(FlagTokens(opt, value))
    else if opt !in SupportedOptions then Throws(Error("Error", UnsupportedMessage(opt), []))
    else Normal([])
  }

  /** The cases of the `switch` in `compilerArgsFromOptions`. A `mode`
      other than the three `Mode` literals falls through into the `docs`
      case, as the `switch` is written. */
  function FlagTokens(opt: string, value: JsValue): seq<JsValue>
    requires opt in FlagOptions
  {
    if opt == "help" then [Str("--help")]
    else if opt == "output" then [Str("--output"), value]
    else if opt == "report" then [Str("--report"), value]
    else if opt == "mode" && value == Str("debug") then [Str("--debug")]
    else if opt == "mode" && value == Str("optimize") then [Str("--optimize")]
    else if opt == "mode" && value == Str("no_mode") then []
    else if opt == "mode" || opt == "docs" then [Str("--docs"), value]
    else [Str("+RTS"), value, Str("-RTS")]
  }

  /** Concatenation of two token lists, where the first exception thrown wins. */
  function Then(a: Completion<seq<JsValue>>, b: Completion<seq<JsValue>>): Completion<seq<JsValue>> {
    if a.Throws? then a else if b.Throws? then b else Normal(a.value + b.value)
  }

  /** `compilerArgsFromOptions`: the tokens of every entry, in entry order.
      It fails exactly when some entry is rejected, and then with the
      message for the FIRST rejected key. */
  function CompilerArgsFromOptions(entries: Bag<JsValue>): (r: Completion<seq<JsValue>>)
    ensures r.Throws? <==> exists i {:trigger Rejected(entries[i])} :: 0 <= i < |entries| && Rejected(entries[i])
    ensures forall i {:trigger Rejected(entries[i])} ::
              0 <= i < |entries| && Rejected(entries[i]) && (forall j {:trigger Rejected(entries[j])} :: 0 <= j < i ==> !Rejected(entries[j])) ==>
              r == Throws(Error("Error", UnsupportedMessage(entries[i].0), []))
    decreases |entries|
  {
    if entries == [] then Normal([])
    else
      var first := OptionTokens(entries[0].0, entries[0].1);
      var rest := CompilerArgsFromOptions(entries[1..]);
      ThenFirstFailure(entries, Rejected, (e: (string, JsValue)) => Error("Error", UnsupportedMessage(e.0), []), first, rest);
      Then(first, rest)
  }

  /** Running `first` and then `rest`, for the head and the tail of
      `entries`, fails with the error of the first entry that is `bad`,
      when the head's and the tail's runs do. */
  lemma {:induction false} ThenFirstFailure<E>(entries: seq<E>, bad: E -> bool, err: E -> JsValue,
                                              first: Completion<seq<JsValue>>, rest: Completion<seq<JsValue>>)
    requires entries != []
    requires first.Throws? <==> bad(entries[0])
    requires bad(entries[0]) ==> first == Throws(err(entries[0]))
    requires rest.Throws? <==> exists i :: 0 <= i < |entries[1..]| && bad(entries[1..][i])
    requires forall i :: 0 <= i < |entries[1..]| && bad(entries[1..][i]) && (forall j :: 0 <= j < i ==> !bad(entries[1..][j])) ==>
               rest == Throws(err(entries[1..][i]))
    ensures Then(first, rest).Throws? <==> exists i :: 0 <= i < |entries| && bad(entries[i])
    ensures forall i :: 0 <= i < |entries| && bad(entries[i]) && (forall j :: 0 <= j < i ==> !bad(entries[j])) ==>
              Then(first, rest) == Throws(err(entries[i]))
  {
    forall i | 0 < i < |entries| ensures entries[1..][i - 1] == entries[i] { }
    if !bad(entries[0]) && rest.Throws? {
      var k :| 0 <= k < |entries[1..]| && bad(entries[1..][k]);
      assert bad(entries[k + 1]);
    }
  }


  /** `prepareProcessArgs`: `make`, then the sources, then the flag tokens.
      The sources are checked before any option is looked at. */
  function PrepareProcessArgs(sources: JsValue, options: Bag<JsValue>): (r: Completion<seq<JsValue>>)
    ensures PrepareSources(sources).Throws? ==> r == Throws(Str(SourcesMessage))
    ensures PrepareSources(sources).Normal? && CompilerArgsFromOptions(options).Throws? ==>
              r == CompilerArgsFromOptions(options)
    ensures r.Normal? <==> PrepareSources(sources).Normal? && CompilerArgsFromOptions(options).Normal?
    ensures r.Normal? ==> r.value == [Str("make")] + PrepareSources(sources).value + CompilerArgsFromOptions(options).value
  {
    match PrepareSources(sources)
    case Throws(e) => Throws(e)
    case Normal(src) =>
      match CompilerArgsFromOptions(options)
      case Throws(e) => Throws(e)
      case Normal(args) => Normal([Str("make")] + src + args)
  }

  // ---------------------------------------------------------------------
  // Properties

  /** An option is rejected when its value is truthy and no case of the
      `switch` nor the supported set covers its key. */
  predicate Rejected(e: (string, JsValue)) {
    Truthy(e.1) && e.0 !in FlagOptions && e.0 !in SupportedOptions
  }

  /** A sources value that is neither a string nor an array is refused
      before any option is looked at, whatever the options are. */
  lemma SourcesCheckedFirst(sources: JsValue, options: Bag<JsValue>)
    requires !(sources.Str? || sources.Arr?)
    ensures PrepareProcessArgs(sources, options) == Throws(Str(SourcesMessage))
  {
  }

  /** A list of one string source builds the same vector as the string itself. */
  lemma SingleSourceIsOneElementArray(s: string, options: Bag<JsValue>)
    ensures PrepareProcessArgs(Str(s), options) == PrepareProcessArgs(Arr([Str(s)]), options)
  {
  }

  lemma ThenAssoc(a: Completion<seq<JsValue>>, b: Completion<seq<JsValue>>, c: Completion<seq<JsValue>>)
    ensures Then(Then(a, b), c) == Then(a, Then(b, c))
  {
    if a.Normal? && b.Normal? && c.Normal? {
      assert (a.value + b.value) + c.value == a.value + (b.value + c.value);
    }
  }

  /** The tokens of two runs of entries are the tokens of the first followed by those of the second. */
  lemma {:induction false} ArgsAppend(a: Bag<JsValue>, b: Bag<JsValue>)
    ensures CompilerArgsFromOptions(a + b) == Then(CompilerArgsFromOptions(a), CompilerArgsFromOptions(b))
    decreases |a|
  {
    if a == [] {
      assert a + b == b;
      var r := CompilerArgsFromOptions(b);
      if r.Normal? { assert [] + r.value == r.value; }
    } else {
      assert (a + b)[1..] == a[1..] + b;
      ArgsAppend(a[1..], b);
      ThenAssoc(OptionTokens(a[0].0, a[0].1), CompilerArgsFromOptions(a[1..]), CompilerArgsFromOptions(b));
    }
  }

  /** The entries whose value is truthy. */
  function TruthyEntries(entries: Bag<JsValue>): (r: Bag<JsValue>)
    ensures forall e :: e in r ==> Truthy(e.1) && e in entries
    ensures forall e :: e in entries && Truthy(e.1) ==> e in r
  {
    if entries == [] then []
    else if Truthy(entries[0].1) then [entries[0]] + TruthyEntries(entries[1..])
    else TruthyEntries(entries[1..])
  }

  /** Entries with a falsy value (undefined, null, false, 0, "") contribute
      nothing and are never rejected, whatever their key. */
  lemma {:induction false} FalsyEntriesIgnored(entries: Bag<JsValue>)
    ensures CompilerArgsFromOptions(entries) == CompilerArgsFromOptions(TruthyEntries(entries))
    decreases |entries|
  {
    if entries != [] {
      FalsyEntriesIgnored(entries[1..]);
      var e := entries[0];
      if Truthy(e.1) {
        assert ([e] + TruthyEntries(entries[1..]))[1..] == TruthyEntries(entries[1..]);
      } else {
        var r := CompilerArgsFromOptions(entries[1..]);
        if r.Normal? { assert [] + r.value == r.value; }
      }
    }
  }

  /** The tokens a truthy `runtimeOptions` value emits. */
  lemma RuntimeOptionsWrapped(value: JsValue)
    requires Truthy(value)
    ensures OptionTokens("runtimeOptions", value) == Normal([Str("+RTS"), value, Str("-RTS")])
  {
  }

  /** The supported keys that are not flags emit nothing, whatever their value. */
  lemma NonFlagOptionsSilent(opt: string, value: JsValue)
    requires opt in ["run", "pathToElm", "cwd", "verbose", "processOpts"]
    ensures OptionTokens(opt, value) == Normal([])
  {
  }

  lemma SupportedOptionsList()
    ensures Keys(DefaultOptions) == SupportedOptions
  {
  }

  /** The mode tokens: `debug`, `optimize` and `no_mode` give `--debug`,
      `--optimize` and nothing; any other truthy mode falls through to
      `--docs`. */
  lemma ModeTokens(value: JsValue)
    ensures value == Str("debug") ==> OptionTokens("mode", value) == Normal([Str("--debug")])
    ensures value == Str("optimize") ==> OptionTokens("mode", value) == Normal([Str("--optimize")])
    ensures value == Str("no_mode") || !Truthy(value) ==> OptionTokens("mode", value) == Normal([])
    ensures Truthy(value) && value !in [Str("debug"), Str("optimize"), Str("no_mode")] ==>
              OptionTokens("mode", value) == Normal([Str("--docs"), value])
  {
  }

  predicate IsModeFlag(v: JsValue) {
    v == Str("--debug") || v == Str("--optimize")
  }

  lemma UniqueTail(e: Bag<JsValue>)
    requires e != [] && UniqueKeys(e)
    ensures UniqueKeys(e[1..])
    ensures e[0].0 !in Keys(e[1..])
  {
  }

  /** What one entry contributes to the count of a mode flag. */
  lemma EntryModeFlagCount(opt: string, value: JsValue, flag: string, mode: string)
    requires !IsModeFlag(value)
    requires (flag, mode) in [("--debug", "debug"), ("--optimize", "optimize")]
    requires OptionTokens(opt, value).Normal?
    ensures multiset(OptionTokens(opt, value).value)[Str(flag)]
              == if opt == "mode" && value == Str(mode) then 1 else 0
  {
    if opt == "mode" {
      ModeFlagOfMode(value, flag, mode);
    } else {
      NoModeFlagOutsideMode(opt, value);
      assert Str(flag) !in OptionTokens(opt, value).value;
    }
  }

  lemma ModeFlagOfMode(value: JsValue, flag: string, mode: string)
    requires !IsModeFlag(value)
    requires (flag, mode) in [("--debug", "debug"), ("--optimize", "optimize")]
    ensures multiset(OptionTokens("mode", value).value)[Str(flag)] == if value == Str(mode) then 1 else 0
  {
    ModeTokens(value);
  }

  /** Apart from the option's own value, no key but `mode` emits a mode flag. */
  lemma NoModeFlagOutsideMode(opt: string, value: JsValue)
    requires opt != "mode" && OptionTokens(opt, value).Normal?
    ensures forall x :: x in OptionTokens(opt, value).value && x != value ==> !IsModeFlag(x)
  {
  }

  /** When no value is itself the text of a mode flag, `--debug` occurs in
      the tokens once if the mode is `debug` and never otherwise, and likewise
      `--optimize`: at most one of them appears, the one the mode names. */
  lemma {:induction false} ModeFlagCount(e: Bag<JsValue>, flag: string, mode: string)
    requires (flag, mode) in [("--debug", "debug"), ("--optimize", "optimize")]
    requires UniqueKeys(e)
    requires forall i :: 0 <= i < |e| ==> !IsModeFlag(e[i].1)
    requires CompilerArgsFromOptions(e).Normal?
    ensures multiset(CompilerArgsFromOptions(e).value)[Str(flag)]
              == if Lookup(e, "mode") == Some(Str(mode)) then 1 else 0
    decreases |e|
  {
    if e != [] {
      UniqueTail(e);
      forall i | 0 <= i < |e[1..]| ensures !IsModeFlag(e[1..][i].1) {
        assert e[1..][i] == e[i + 1];
      }
      ModeFlagCount(e[1..], flag, mode);
      var t := OptionTokens(e[0].0, e[0].1);
      var rest := CompilerArgsFromOptions(e[1..]);
      assert CompilerArgsFromOptions(e).value == t.value + rest.value;
      assert !IsModeFlag(e[0].1);
      EntryModeFlagCount(e[0].0, e[0].1, flag, mode);
      assert multiset(t.value + rest.value)[Str(flag)] == multiset(t.value)[Str(flag)] + multiset(rest.value)[Str(flag)];
      if e[0].0 == "mode" {
        assert Lookup(e[1..], "mode") == None;
      }
    }
  }

  lemma DefaultsUnique()
    ensures UniqueKeys(DefaultOptions)
  {
  }

  lemma LookupAt(b: Bag<JsValue>, i: int)
    requires UniqueKeys(b) && 0 <= i < |b|
    ensures Lookup(b, b[i].0) == Some(b[i].1)
    decreases i
  {
    if i > 0 {
      assert b[1..][i - 1] == b[i];
      assert UniqueKeys(b[1..]) by { UniqueTail(b); }
      LookupAt(b[1..], i - 1);
    }
  }

  /** The tokens one option contributes, as the value it has in the merged bag. */
  function Emit(merged: Bag<JsValue>, opt: string): seq<JsValue>
    requires opt in FlagOptions
  {
    OptionTokens(opt, Field(merged, opt)).value
  }

  lemma ArgsStep(p: Bag<JsValue>, k: nat)
    requires k < |p|
    requires OptionTokens(p[k].0, p[k].1).Normal? && CompilerArgsFromOptions(p[k + 1..]).Normal?
    ensures CompilerArgsFromOptions(p[k..])
              == Normal(OptionTokens(p[k].0, p[k].1).value + CompilerArgsFromOptions(p[k + 1..]).value)
  {
    assert p[k..][1..] == p[k + 1..];
  }

  lemma FlagTokensNormal(opt: string, value: JsValue)
    requires opt in FlagOptions
    ensures OptionTokens(opt, value).Normal?
  {
  }

  /** The default slots of a merged bag: their tokens, in slot order. */
  lemma DefaultSlots(m: Bag<JsValue>)
    requires |m| >= 10
    requires Keys(m[..10]) == SupportedOptions
    ensures CompilerArgsFromOptions(m[..10]) ==
              Normal(OptionTokens("mode", m[1].1).value + OptionTokens("help", m[4].1).value
                     + OptionTokens("output", m[5].1).value + OptionTokens("report", m[6].1).value
                     + OptionTokens("docs", m[9].1).value)
  {
    var p := m[..10];
    forall i | 0 <= i < 10 ensures p[i].0 == SupportedOptions[i] && p[i].1 == m[i].1 {
      assert Keys(p)[i] == p[i].0;
    }
    var mode, help, output, report, docs :=
      OptionTokens("mode", m[1].1).value, OptionTokens("help", m[4].1).value, OptionTokens("output", m[5].1).value,
      OptionTokens("report", m[6].1).value, OptionTokens("docs", m[9].1).value;
    BackSlots(p);
    FrontSlots(p, output + (report + docs));
    Assoc(mode, help, output + (report + docs));
    Assoc(mode + help, output, report + docs);
    Assoc(mode + help + output, report, docs);
  }

  /** The slots from `output` to `docs`: only the three flags give tokens. */
  lemma BackSlots(p: Bag<JsValue>)
    requires |p| == 10
    requires p[5].0 == "output" && p[6].0 == "report" && p[7].0 == "verbose" && p[8].0 == "processOpts" && p[9].0 == "docs"
    ensures CompilerArgsFromOptions(p[5..]) ==
              Normal(OptionTokens("output", p[5].1).value + (OptionTokens("report", p[6].1).value + OptionTokens("docs", p[9].1).value))
  {
    var output, report, docs :=
      OptionTokens("output", p[5].1).value, OptionTokens("report", p[6].1).value, OptionTokens("docs", p[9].1).value;
    FlagTokensNormal("output", p[5].1); FlagTokensNormal("report", p[6].1); FlagTokensNormal("docs", p[9].1);
    NonFlagOptionsSilent("verbose", p[7].1); NonFlagOptionsSilent("processOpts", p[8].1);
    assert p[10..] == [];
    ArgsStep(p, 9);
    assert CompilerArgsFromOptions(p[9..]) == Normal(docs) by { assert docs + [] == docs; }
    ArgsStep(p, 8);
    assert CompilerArgsFromOptions(p[8..]) == Normal(docs) by { assert [] + docs == docs; }
    ArgsStep(p, 7);
    assert CompilerArgsFromOptions(p[7..]) == Normal(docs) by { assert [] + docs == docs; }
    ArgsStep(p, 6);
    ArgsStep(p, 5);
  }

  /** The slots from `run` to `help`, in front of the tokens `rest` of the
      later slots: only `mode` and `help` give tokens. */
  lemma FrontSlots(p: Bag<JsValue>, rest: seq<JsValue>)
    requires |p| == 10
    requires p[0].0 == "run" && p[1].0 == "mode" && p[2].0 == "pathToElm" && p[3].0 == "cwd" && p[4].0 == "help"
    requires CompilerArgsFromOptions(p[5..]) == Normal(rest)
    ensures CompilerArgsFromOptions(p) ==
              Normal(OptionTokens("mode", p[1].1).value + (OptionTokens("help", p[4].1).value + rest))
  {
    var mode, help := OptionTokens("mode", p[1].1).value, OptionTokens("help", p[4].1).value;
    MiddleSlots(p, rest);
    FlagTokensNormal("mode", p[1].1);
    NonFlagOptionsSilent("run", p[0].1);
    ArgsStep(p, 1);
    ArgsStep(p, 0);
    assert p[0..] == p;
    assert CompilerArgsFromOptions(p) == Normal(mode + (help + rest)) by { assert [] + (mode + (help + rest)) == mode + (help + rest); }
  }

  /** The slots from `pathToElm` to `help`: only `help` gives tokens. */
  lemma MiddleSlots(p: Bag<JsValue>, rest: seq<JsValue>)
    requires |p| == 10
    requires p[2].0 == "pathToElm" && p[3].0 == "cwd" && p[4].0 == "help"
    requires CompilerArgsFromOptions(p[5..]) == Normal(rest)
    ensures CompilerArgsFromOptions(p[2..]) == Normal(OptionTokens("help", p[4].1).value + rest)
  {
    var help := OptionTokens("help", p[4].1).value;
    FlagTokensNormal("help", p[4].1);
    NonFlagOptionsSilent("pathToElm", p[2].1);
    NonFlagOptionsSilent("cwd", p[3].1);
    ArgsStep(p, 4);
    ArgsStep(p, 3);
    assert CompilerArgsFromOptions(p[3..]) == Normal(help + rest) by { assert [] + (help + rest) == help + rest; }
    ArgsStep(p, 2);
    assert [] + (help + rest) == help + rest;
  }

  lemma Assoc<T>(a: seq<T>, b: seq<T>, c: seq<T>)
    ensures a + (b + c) == (a + b) + c
  {
  }

  /** The order of the flag tokens is fixed by the defaults' key order,
      whatever order the caller gave the options in: the mode token, then
      `--help`, `--output v`, `--report v`, `--docs v`, then the tokens of the
      caller's extra keys in the order those keys were first given. */
  lemma FlagOrder(options: JsValue)
    ensures var merged := PrepareOptions(options);
      && |merged| >= |DefaultOptions|
      && CompilerArgsFromOptions(merged) ==
           Then(Normal(Emit(merged, "mode") + Emit(merged, "help") + Emit(merged, "output")
                       + Emit(merged, "report") + Emit(merged, "docs")),
                CompilerArgsFromOptions(merged[|DefaultOptions|..]))
  {
    var m := PrepareOptions(options);
    assert Keys(m)[..10] == SupportedOptions;
    assert Keys(m[..10]) == Keys(m)[..10];
    DefaultSlots(m);
    assert m == m[..10] + m[10..];
    ArgsAppend(m[..10], m[10..]);
    forall i | 0 <= i < 10 ensures m[i].0 == SupportedOptions[i] {
      assert Keys(m)[i] == m[i].0;
    }
    LookupAt(m, 1); LookupAt(m, 4); LookupAt(m, 5); LookupAt(m, 6); LookupAt(m, 9);
  }

  /** A truthy `output` is passed as `--output` followed by its value, right
      after the mode and help tokens. */
  lemma OutputFlagPassed(options: JsValue)
    requires Truthy(Field(PrepareOptions(options), "output"))
    requires CompilerArgsFromOptions(PrepareOptions(options)).Normal?
    ensures var m := PrepareOptions(options);
            var args := CompilerArgsFromOptions(m).value;
            var i := |Emit(m, "mode") + Emit(m, "help")|;
      i + 2 <= |args| && args[i..i + 2] == [Str("--output"), Field(m, "output")]
  {
    var m := PrepareOptions(options);
    FlagOrder(options);
    OutputAfterModeAndHelp(m, CompilerArgsFromOptions(m), CompilerArgsFromOptions(m[|DefaultOptions|..]));
  }

  lemma OutputAfterModeAndHelp(m: Bag<JsValue>, args: Completion<seq<JsValue>>, rest: Completion<seq<JsValue>>)
    requires Truthy(Field(m, "output"))
    requires args.Normal?
    requires args == Then(Normal(Emit(m, "mode") + Emit(m, "help") + Emit(m, "output")
                                 + Emit(m, "report") + Emit(m, "docs")), rest)
    ensures var i := |Emit(m, "mode") + Emit(m, "help")|;
      i + 2 <= |args.value| && args.value[i..i + 2] == [Str("--output"), Field(m, "output")]
  {
    EmitOutput(m);
    OutputSlot(Emit(m, "mode") + Emit(m, "help"), Emit(m, "output"), Emit(m, "report"), Emit(m, "docs"), rest, args);
  }

  /** In a vector that runs `a`, then `c`, then more, `c` sits right after `a`. */
  lemma OutputSlot(a: seq<JsValue>, c: seq<JsValue>, d: seq<JsValue>, e: seq<JsValue>,
                   rest: Completion<seq<JsValue>>, args: Completion<seq<JsValue>>)
    requires args.Normal? && args == Then(Normal(a + c + d + e), rest)
    ensures |a| + |c| <= |args.value| && args.value[|a|..|a| + |c|] == c
  {
    SliceOfMiddle(a, c, d, e, rest.value);
  }

  lemma EmitOutput(m: Bag<JsValue>)
    requires Truthy(Field(m, "output"))
    ensures Emit(m, "output") == [Str("--output"), Field(m, "output")]
  {
  }

  lemma SliceOfMiddle<T>(a: seq<T>, c: seq<T>, d: seq<T>, e: seq<T>, r: seq<T>)
    ensures (a + c + d + e + r)[|a|..|a| + |c|] == c
  {
    assert a + c + d + e + r == a + (c + (d + e + r));
  }

  /** The whole vector for a caller's options: `make`, the sources, the
      mode, help, output, report and docs tokens in that order whatever
      order the caller gave them in, then the tokens of the caller's extra
      keys, whose first rejected key decides the failure. */
  lemma ProcessArgsLayout(sources: JsValue, options: JsValue)
    ensures var m := PrepareOptions(options);
      PrepareSources(sources).Normal? ==>
        PrepareProcessArgs(sources, m)
          == Then(Normal([Str("make")] + PrepareSources(sources).value
                         + (Emit(m, "mode") + Emit(m, "help") + Emit(m, "output") + Emit(m, "report") + Emit(m, "docs"))),
                  CompilerArgsFromOptions(m[|DefaultOptions|..]))
  {
    var m := PrepareOptions(options);
    FlagOrder(options);
    var flags := Emit(m, "mode") + Emit(m, "help") + Emit(m, "output") + Emit(m, "report") + Emit(m, "docs");
    ArgsAfterSources(sources, m, flags, CompilerArgsFromOptions(m[|DefaultOptions|..]));
  }

  /** Flag tokens that start with a fixed run come right after the sources. */
  lemma ArgsAfterSources(sources: JsValue, m: Bag<JsValue>, flags: seq<JsValue>, extras: Completion<seq<JsValue>>)
    requires CompilerArgsFromOptions(m) == Then(Normal(flags), extras)
    ensures PrepareSources(sources).Normal? ==>
              PrepareProcessArgs(sources, m) == Then(Normal([Str("make")] + PrepareSources(sources).value + flags), extras)
  {
    if PrepareSources(sources).Normal? && extras.Normal? {
      Assoc([Str("make")] + PrepareSources(sources).value, flags, extras.value);
    }
  }
}
