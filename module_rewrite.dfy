/** The text transform of `compileToModuleString` in compiler.ts: the
    compiled script `(function(scope){ ... }(this));` becomes a named
    initializer `function init(scope){ ... }`, followed by a fixed suffix
    that runs it on a fresh module scope and exports that scope's `Elm`. */
module ModuleRewrite {
  import opened Text

  const ScriptPrologue := "(function(scope){"
  const InitPrologue := "function init(scope){"
  const ScriptEpilogue := ";}(this));"
  const InitEpilogue := ";}"
  const ModuleSuffix := "\n  const moduleScope = {};\n  init(moduleScope);\n  export default moduleScope.Elm;"

  /** The two `.replace` calls (each replacing only a first occurrence) and the template. */
  function ToModuleText(compiled: string): (r: string)
    ensures EndsWith(r, ModuleSuffix)
  {
    var intermediate := ReplaceFirst(ReplaceFirst(compiled, ScriptPrologue, InitPrologue), ScriptEpilogue, InitEpilogue);
    var r := intermediate + ModuleSuffix;
    assert r[|r| - |ModuleSuffix|..] == ModuleSuffix;
    r
  }

  /** Text with neither pattern is returned as it is, plus the suffix. */
  lemma NoWrapperKept(compiled: string)
    requires !Contains(compiled, ScriptPrologue) && !Contains(compiled, ScriptEpilogue)
    ensures ToModuleText(compiled) == compiled + ModuleSuffix
  {
  }

  lemma InitPrologueHasNoSemicolon()
    ensures ScriptEpilogue[0] !in InitPrologue
  {
  }

  /** Script text that opens with the wrapper, as the compiled output
      does, opens with the initializer once rewritten. */
  lemma WrappedScriptBecomesInitializer(compiled: string)
    requires StartsWith(compiled, ScriptPrologue)
    ensures ToModuleText(compiled)
              == InitPrologue + ReplaceFirst(compiled[|ScriptPrologue|..], ScriptEpilogue, InitEpilogue) + ModuleSuffix
    ensures StartsWith(ToModuleText(compiled), InitPrologue)
  {
    InitPrologueHasNoSemicolon();
    ReplaceTwiceAtStart(compiled, ScriptPrologue, InitPrologue, ScriptEpilogue, InitEpilogue);
    var x := ReplaceFirst(compiled[|ScriptPrologue|..], ScriptEpilogue, InitEpilogue) + ModuleSuffix;
    assert (InitPrologue + x)[..|InitPrologue|] == InitPrologue;
  }

  /** The whole rewrite of a wrapped script whose closing `;}(this));` is
      the first one in it: the body and whatever trails the wrapper are
      kept, between the initializer's header and closing brace. */
  lemma WrappedScriptToModule(body: string, tail: string)
    requires forall j :: 0 <= j < |body| ==> !OccursAt(body + ScriptEpilogue, ScriptEpilogue, j)
    ensures ToModuleText(ScriptPrologue + body + ScriptEpilogue + tail)
              == InitPrologue + body + InitEpilogue + tail + ModuleSuffix
  {
    var rest := body + ScriptEpilogue + tail;
    var compiled := ScriptPrologue + rest;
    assert compiled == ScriptPrologue + body + ScriptEpilogue + tail;
    assert compiled[..|ScriptPrologue|] == ScriptPrologue;
    assert compiled[|ScriptPrologue|..] == rest;
    WrappedScriptBecomesInitializer(compiled);
    ReplaceAfterBody(body, ScriptEpilogue, tail, InitEpilogue);
  }
}
