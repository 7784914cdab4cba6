/**
 * The accessors of a module's exports (`ModuleGetExport`, `ModuleSetExport`,
 * src/accessors.cc:1151-1191). Each export is a slot of the module's context,
 * whose index is the accessor's data; a slot still holding the hole belongs
 * to a binding that has not been initialized yet.
 */
module ModuleExports {
  import opened Values

  /** A context slot: the hole, or a value. */
  datatype Slot = TheHole | Bound(value: Value)

  const NotDefined := "not_defined"

  /** The error both accessors schedule for an uninitialized binding. */
  function NotDefinedError(name: string): (e: Error)
    ensures e.ReferenceError? && e.message == NotDefined && e.args == [Str(name)]
  {
    ReferenceError(NotDefined, [Str(name)])
  }

  /** `ModuleGetExport`: the value in the export's slot, or a ReferenceError
      naming the export when the slot holds the hole. */
  function ModuleGetExport(context: array<Slot>, index: nat, name: string): (r: Result<Value>)
    reads context
    requires index < context.Length
    ensures r.Err? <==> context[index] == TheHole
    ensures r.Err? ==> r.error == NotDefinedError(name)
    ensures r.Ok? ==> context[index] == Bound(r.value)
  {
    match context[index]
    case TheHole => Err(NotDefinedError(name))
    case Bound(v) => Ok(v)
  }

  /** `ModuleSetExport`: a ReferenceError naming the export, and no change,
      when the slot holds the hole; otherwise the slot takes the value and no
      other slot changes. */
  method ModuleSetExport(context: array<Slot>, index: nat, name: string, value: Value) returns (r: Result<()>)
    requires index < context.Length
    modifies context
    ensures r.Err? <==> old(context[index]) == TheHole
    ensures r.Err? ==> r.error == NotDefinedError(name) && context[..] == old(context[..])
    ensures r.Ok? ==> context[..] == old(context[..])[index := Bound(value)]
  {
    var oldValue := context[index];
    if oldValue == TheHole {
      return Err(NotDefinedError(name));
    }
    context[index] := Bound(value);
    return Ok(());
  }

  /** A store that succeeds is seen by the next read, and one that fails
      leaves the read failing with the same error. */
  method SetThenGetExport(context: array<Slot>, index: nat, name: string, value: Value) returns (stored: Result<()>, got: Result<Value>)
    requires index < context.Length
    modifies context
    ensures stored.Ok? ==> got == Ok(value)
    ensures stored.Err? ==> got == Err(NotDefinedError(name)) && stored.error == got.error
  {
    stored := ModuleSetExport(context, index, name, value);
    if stored.Ok? {
      assert context[index] == context[..][index];
    }
    got := ModuleGetExport(context, index, name);
  }
}
