/** The options handed to the process launcher: `prepareProcessOpts` and
    the final object `buildElmProcess` passes to `options.run` in
    compiler.ts. The inherited environment (`Deno.env.toObject()`) is a
    parameter. */
module ProcessOptions {
  import opened Bags
  import opened JsValues

  const DefaultLocale := "en_US.UTF-8"

  /** An environment as an object whose values are strings. */
  function EnvObject(env: Bag<string>): (r: Bag<JsValue>)
    ensures Keys(r) == Keys(env)
    ensures forall k :: LastLookup(r, k) == (match LastLookup(env, k) case Some(v) => Some(Str(v)) case None => None)
    decreases |env|
  {
    if env == [] then []
    else
      var r := [(env[0].0, Str(env[0].1))] + EnvObject(env[1..]);
      assert r[1..] == EnvObject(env[1..]);
      r
  }

  /** `{ LANG: "en_US.UTF-8", ...Deno.env.toObject() }`: `LANG` is
      `en_US.UTF-8` only when the inherited environment has no `LANG`, and
      every inherited variable passes through with its inherited value. */
  function ProcessEnv(inherited: Bag<string>): (r: Bag<JsValue>)
    ensures Lookup(r, "LANG")
              == Some(Str(match LastLookup(inherited, "LANG") case Some(v) => v case None => DefaultLocale))
    ensures forall k :: k != "LANG" ==>
              Lookup(r, k) == (match LastLookup(inherited, k) case Some(v) => Some(Str(v)) case None => None)
  {
    var r := Spread([("LANG", Str(DefaultLocale))], EnvObject(inherited));
    SpreadLookup([("LANG", Str(DefaultLocale))], EnvObject(inherited), "LANG");
    forall k | k != "LANG"
      ensures Lookup(r, k) == (match LastLookup(inherited, k) case Some(v) => Some(Str(v)) case None => None)
    {
      SpreadLookup([("LANG", Str(DefaultLocale))], EnvObject(inherited), k);
    }
    r
  }

  /** The layer under the caller's `processOpts`: the environment, inherited
      stdio and the `cwd` option. */
  function BaseLayer(options: Bag<JsValue>, inherited: Bag<string>): Bag<JsValue> {
    [("env", Obj(ProcessEnv(inherited))), ("stdio", Str("inherit")), ("cwd", Field(options, "cwd"))]
  }

  /** The base layer has exactly the keys `env`, `stdio` and `cwd`, holding
      the environment, `inherit` and the `cwd` option. */
  lemma BaseLayerFields(options: Bag<JsValue>, inherited: Bag<string>)
    ensures var base := BaseLayer(options, inherited);
      && Keys(base) == ["env", "stdio", "cwd"]
      && Lookup(base, "env") == Some(Obj(ProcessEnv(inherited)))
      && Lookup(base, "stdio") == Some(Str("inherit"))
      && Lookup(base, "cwd") == Some(Field(options, "cwd"))
  {
    var base := BaseLayer(options, inherited);
    assert base[1..][0] == ("stdio", Str("inherit"));
    assert base[1..][1..][0] == ("cwd", Field(options, "cwd"));
  }

  /** `prepareProcessOpts`: the base layer with every field of `processOpts` spread over it. */
  function PrepareProcessOpts(options: Bag<JsValue>, inherited: Bag<string>): (r: Bag<JsValue>)
    ensures forall k :: Lookup(r, k)
              == Override(LastLookup(OwnEntries(Field(options, "processOpts")), k), Lookup(BaseLayer(options, inherited), k))
  {
    var r := Spread(BaseLayer(options, inherited), OwnEntries(Field(options, "processOpts")));
    forall k ensures Lookup(r, k)
        == Override(LastLookup(OwnEntries(Field(options, "processOpts")), k), Lookup(BaseLayer(options, inherited), k)) {
      SpreadLookup(BaseLayer(options, inherited), OwnEntries(Field(options, "processOpts")), k);
    }
    r
  }

  /** `{ ...processOpts, cmd: [pathToElm, ...processArgs] }`: `cmd` is set last, so
      it is always the binary followed by the argument vector, and nothing
      else changes. */
  function RunOptions(processOpts: Bag<JsValue>, pathToElm: JsValue, args: seq<JsValue>): (r: Bag<JsValue>)
    ensures Lookup(r, "cmd") == Some(Arr([pathToElm] + args))
    ensures forall k :: k != "cmd" ==> Lookup(r, k) == Lookup(processOpts, k)
  {
    var r := Put(processOpts, "cmd", Arr([pathToElm] + args));
    forall k ensures Lookup(r, k) == if k == "cmd" then Some(Arr([pathToElm] + args)) else Lookup(processOpts, k) {
      PutLookup(processOpts, "cmd", Arr([pathToElm] + args), k);
    }
    r
  }

  /** The three layered fields: a `processOpts` field wins, otherwise the
      environment above, `stdio: "inherit"` and `cwd: options.cwd`. */
  lemma ProcessOptsLayers(options: Bag<JsValue>, inherited: Bag<string>)
    ensures var r := PrepareProcessOpts(options, inherited);
            var po := OwnEntries(Field(options, "processOpts"));
      && Lookup(r, "env") == Override(LastLookup(po, "env"), Some(Obj(ProcessEnv(inherited))))
      && Lookup(r, "stdio") == Override(LastLookup(po, "stdio"), Some(Str("inherit")))
      && Lookup(r, "cwd") == Override(LastLookup(po, "cwd"), Some(Field(options, "cwd")))
  {
    BaseLayerFields(options, inherited);
  }

  /** Without `processOpts` (or with one that has no own entries) the
      launcher gets exactly the three base fields. */
  lemma NoProcessOpts(options: Bag<JsValue>, inherited: Bag<string>)
    requires OwnEntries(Field(options, "processOpts")) == []
    ensures PrepareProcessOpts(options, inherited) == BaseLayer(options, inherited)
  {
  }
}
