/**
 * The read-only function properties `length` and `name`
 * (`Accessors::FunctionGetLength` and `Accessors::FunctionGetName`,
 * src/accessors.cc:875-914). Both report on the nearest function on the
 * receiver's prototype chain.
 */
module FunctionAccessors {
  import opened Values
  import opened Heap

  /** `FunctionGetLength`: 0 without a function on the chain; the formal
      parameter count of a compiled function; otherwise the count after
      compiling it, or the exception compilation raised. Compilation
      (`Compiler::EnsureCompiled`) is the parameter `ensureCompiled`, which
      gives the parameter count of the compiled function or an error. */
  function FunctionGetLength(objs: Objects, ghost rank: map<Ref, nat>, realm: Realm, receiver: Value,
                             ensureCompiled: SharedInfo -> Result<nat>): (r: Result<Value>)
    requires Ranked(objs, rank)
  {
    match FindInstanceOf(objs, rank, realm, receiver, IsFunction)
    case None => Ok(Smi(0))
    case Some(f) =>
      var shared := objs[f].kind.shared;
      if shared.compiled then Ok(Smi(shared.length))
      else
        var n :- ensureCompiled(shared);
        Ok(Smi(n))
  }

  /** Only an uncompiled function consults the compiler: an already compiled
      one reports its stored count whatever the compiler would do, an
      uncompiled one reports the count compilation gives it, and the accessor
      fails only when that compilation fails, with its error. */
  lemma FunctionGetLengthCompilesOnlyWhenNeeded(objs: Objects, rank: map<Ref, nat>, realm: Realm, receiver: Value,
                                                ensureCompiled: SharedInfo -> Result<nat>)
    requires Ranked(objs, rank)
    ensures var h := FindInstanceOf(objs, rank, realm, receiver, IsFunction);
      var r := FunctionGetLength(objs, rank, realm, receiver, ensureCompiled);
      && (h.Some? && objs[h.value].kind.shared.compiled ==> r == Ok(Smi(objs[h.value].kind.shared.length)))
      && (h.Some? && !objs[h.value].kind.shared.compiled && ensureCompiled(objs[h.value].kind.shared).Ok? ==>
            r == Ok(Smi(ensureCompiled(objs[h.value].kind.shared).value)))
      && (r.Err? <==> h.Some? && !objs[h.value].kind.shared.compiled && ensureCompiled(objs[h.value].kind.shared).Err?)
      && (r.Err? ==> r.error == ensureCompiled(objs[h.value].kind.shared).error)
  {
  }

  /** `FunctionGetName`: the name in the shared info of the nearest function,
      or undefined when there is none. */
  function FunctionGetName(objs: Objects, ghost rank: map<Ref, nat>, realm: Realm, receiver: Value): Value
    requires Ranked(objs, rank)
  {
    match FindInstanceOf(objs, rank, realm, receiver, IsFunction)
    case None => Undefined
    case Some(f) => objs[f].kind.shared.name
  }

  /** A function reports its own name and, once compiled, its own length. */
  lemma FunctionOwnNameAndLength(objs: Objects, rank: map<Ref, nat>, realm: Realm, f: Ref,
                                 ensureCompiled: SharedInfo -> Result<nat>)
    requires Ranked(objs, rank) && IsFunctionRef(objs, f) && objs[f].kind.shared.compiled
    ensures FunctionGetName(objs, rank, realm, Obj(f)) == objs[f].kind.shared.name
    ensures FunctionGetLength(objs, rank, realm, Obj(f), ensureCompiled) == Ok(Smi(objs[f].kind.shared.length))
  {
  }

  /** Without a function anywhere on the chain, the name is undefined and the
      length is 0, and neither consults the compiler. */
  lemma NoFunctionOnChain(objs: Objects, rank: map<Ref, nat>, realm: Realm, receiver: Value,
                          ensureCompiled: SharedInfo -> Result<nat>)
    requires Ranked(objs, rank)
    requires var c := Chain(objs, rank, ChainStart(realm, receiver));
      forall i :: 0 <= i < |c| ==> !IsFunction(objs[c[i]].kind)
    ensures FunctionGetName(objs, rank, realm, receiver) == Undefined
    ensures FunctionGetLength(objs, rank, realm, receiver, ensureCompiled) == Ok(Smi(0))
  {
    FindFromIsFirstMatch(objs, rank, ChainStart(realm, receiver), IsFunction);
  }
}
