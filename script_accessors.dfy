/**
 * The getters of the properties of a script wrapper (`script.id`,
 * `script.source`, ..., src/accessors.cc:300-749). Each one unwraps the
 * receiver, which must be a JSValue boxing a Script, and reads the script.
 */
module ScriptAccessors {
  import opened Values
  import opened Heap

  /** A JSValue that boxes a Script: the receiver every script getter casts
      its `this` to. */
  predicate IsScriptWrapper(objs: Objects, v: Value)
  {
    v.Obj? && v.ref in objs && objs[v.ref].kind.ScriptWrapper?
  }

  function ScriptOf(objs: Objects, v: Value): Script
    requires IsScriptWrapper(objs, v)
  {
    objs[v.ref].kind.script
  }

  /** The script fields that are returned as they are stored. */
  datatype PlainField = ColumnOffset | Id | Name | Source | LineOffset | ScriptType | ContextData

  /** The value a plain field holds in a script. */
  function Field(s: Script, field: PlainField): Value
  {
    match field
    case ColumnOffset => s.columnOffset
    case Id => s.id
    case Name => s.name
    case Source => s.source
    case LineOffset => s.lineOffset
    case ScriptType => s.scriptType
    case ContextData => s.contextData
  }

  /** The getters of `column_offset`, `id`, `name`, `source`, `line_offset`,
      `type` and `context_data`: the field of the wrapped script. */
  function ScriptFieldGetter(objs: Objects, receiver: Value, field: PlainField): Value
    requires IsScriptWrapper(objs, receiver)
  {
    Field(ScriptOf(objs, receiver), field)
  }

  /** `Script::COMPILATION_TYPE_HOST` is 0 and `Script::COMPILATION_TYPE_EVAL` is 1. */
  function CompilationTypeCode(t: CompilationType): (n: int)
    ensures n == 0 || n == 1
    ensures n == 1 <==> t == Eval
  {
    match t
    case Host => 0
    case Eval => 1
  }

  /** `ScriptCompilationTypeGetter`: the compilation type as a Smi. */
  function ScriptCompilationTypeGetter(objs: Objects, receiver: Value): (r: Value)
    requires IsScriptWrapper(objs, receiver)
    ensures r == Smi(0) || r == Smi(1)
    ensures r == Smi(1) <==> ScriptOf(objs, receiver).compilationType == Eval
  {
    Smi(CompilationTypeCode(ScriptOf(objs, receiver).compilationType))
  }

  /** `Script::GetWrapper` hands back a JSValue that boxes the given script. */
  predicate WrapsScript(objs: Objects, getWrapper: Script -> Ref, s: Script)
  {
    IsScriptWrapper(objs, Obj(getWrapper(s))) && ScriptOf(objs, Obj(getWrapper(s))) == s
  }

  /** `ScriptEvalFromScriptGetter`: the wrapper of the script that holds the
      function which called `eval`, or undefined when the script does not
      come from `eval` or that function has no script. `Script::GetWrapper`
      is the parameter `getWrapper`. */
  function ScriptEvalFromScriptGetter(objs: Objects, receiver: Value, getWrapper: Script -> Ref): (r: Value)
    requires IsScriptWrapper(objs, receiver)
    ensures var s := ScriptOf(objs, receiver);
      r == Undefined <==> s.evalFromShared.None? || s.evalFromShared.value.script.None?
    ensures r == Undefined || r.Obj?
  {
    var s := ScriptOf(objs, receiver);
    if s.evalFromShared.Some? && s.evalFromShared.value.script.Some? then
      Obj(getWrapper(s.evalFromShared.value.script.value))
    else Undefined
  }

  /** Reading `eval_from_script` and then a field of it reads that field of
      the script in which `eval` was called. */
  lemma EvalFromScriptReadsCallingScript(objs: Objects, receiver: Value, getWrapper: Script -> Ref, field: PlainField)
    requires IsScriptWrapper(objs, receiver)
    requires var s := ScriptOf(objs, receiver);
      s.evalFromShared.Some? && s.evalFromShared.value.script.Some?
      && WrapsScript(objs, getWrapper, s.evalFromShared.value.script.value)
    ensures var caller := ScriptOf(objs, receiver).evalFromShared.value.script.value;
      var w := ScriptEvalFromScriptGetter(objs, receiver, getWrapper);
      IsScriptWrapper(objs, w) && ScriptOf(objs, w) == caller
      && ScriptFieldGetter(objs, w, field) == Field(caller, field)
  {
  }

  /** `ScriptEvalFromScriptPositionGetter`: for a script compiled by `eval`, the
      source position, in the calling function's code, of the `eval` call;
      undefined for any other script. The position lookup
      (`Code::SourcePosition` at the stored instruction offset) is the
      parameter `sourcePosition`. The getter reads `eval_from_shared` of every
      eval script without checking it, so such a script must have one. */
  function ScriptEvalFromScriptPositionGetter(objs: Objects, receiver: Value,
                                              sourcePosition: (SharedInfo, int) -> int): (r: Value)
    requires IsScriptWrapper(objs, receiver)
    requires ScriptOf(objs, receiver).compilationType == Eval ==> ScriptOf(objs, receiver).evalFromShared.Some?
    ensures var s := ScriptOf(objs, receiver);
      && (r == Undefined <==> s.compilationType == Host)
      && (s.compilationType == Eval ==>
            r == Smi(sourcePosition(s.evalFromShared.value, s.evalFromInstructionsOffset)))
  {
    var s := ScriptOf(objs, receiver);
    if s.compilationType == Eval then
      Smi(sourcePosition(s.evalFromShared.value, s.evalFromInstructionsOffset))
    else Undefined
  }

  /** The position is defined exactly for the scripts whose `compilation_type`
      reads 1 (EVAL). */
  lemma EvalPositionDefinedForEvalScripts(objs: Objects, receiver: Value, sourcePosition: (SharedInfo, int) -> int)
    requires IsScriptWrapper(objs, receiver)
    requires ScriptOf(objs, receiver).compilationType == Eval ==> ScriptOf(objs, receiver).evalFromShared.Some?
    ensures ScriptEvalFromScriptPositionGetter(objs, receiver, sourcePosition) != Undefined
        <==> ScriptCompilationTypeGetter(objs, receiver) == Smi(1)
  {
    assert Smi(1) != Smi(0);
  }

  /** `ScriptEvalFromFunctionNameGetter`: the name of the function that called
      `eval`, or its inferred name when it has none. The getter casts
      `eval_from_shared` without checking it, so the script must have one. */
  function ScriptEvalFromFunctionNameGetter(objs: Objects, receiver: Value): (r: Value)
    requires IsScriptWrapper(objs, receiver)
    requires ScriptOf(objs, receiver).evalFromShared.Some?
    ensures var shared := ScriptOf(objs, receiver).evalFromShared.value;
      && (shared.name != Undefined ==> r == shared.name)
      && (shared.name == Undefined ==> r == shared.inferredName)
    ensures r == Undefined ==> ScriptOf(objs, receiver).evalFromShared.value.inferredName == Undefined
  {
    var shared := ScriptOf(objs, receiver).evalFromShared.value;
    if shared.name != Undefined then shared.name else shared.inferredName
  }
}
