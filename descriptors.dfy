/**
 * The accessor descriptors: the record that property lookup finds and that
 * names the native getter and setter to call (`MakeAccessor`,
 * src/accessors.cc:46-63; the static `AccessorDescriptor` tables; and
 * `MakeModuleExport`, src/accessors.cc:1194-1211). Callback pointers become a
 * closed set of tags.
 */
module Descriptors {
  import opened Values

  /** The PropertyAttributes bits an accessor is installed with. */
  datatype Attributes = Attributes(readOnly: bool, dontEnum: bool, dontDelete: bool)

  /** The built-in properties whose AccessorInfo comes from `MakeAccessor`. */
  datatype InfoKind =
    | StringLength
    | ScriptColumnOffset
    | ScriptId
    | ScriptName
    | ScriptSource
    | ScriptLineOffset
    | ScriptType
    | ScriptCompilationType
    | ScriptLineEnds
    | ScriptContextData
    | ScriptEvalFromScript
    | ScriptEvalFromScriptPosition
    | ScriptEvalFromFunctionName

  /** The native callbacks an AccessorInfo can point at. `InfoSetter(k)` is the
      setter of an InfoKind property, which aborts if it is ever called. */
  datatype Callback =
    | InfoGetter(kind: InfoKind)
    | InfoSetter(kind: InfoKind)
    | ModuleGetExport
    | ModuleSetExport

  /** An ExecutableAccessorInfo. An unset getter or setter is None, and so is
      unset auxiliary data. */
  datatype AccessorInfo = AccessorInfo(
    name: string,
    attributes: Attributes,
    allCanRead: bool,
    allCanWrite: bool,
    prohibitsOverwriting: bool,
    getter: Option<Callback>,
    setter: Option<Callback>,
    data: Option<int>)

  /** `MakeAccessor`: a readable and writable accessor that may be overwritten,
      with both callbacks installed and no auxiliary data. */
  function MakeAccessor(name: string, getter: Callback, setter: Callback, attributes: Attributes): (info: AccessorInfo)
    ensures info.name == name && info.attributes == attributes
    ensures info.allCanRead && info.allCanWrite && !info.prohibitsOverwriting
    ensures info.getter == Some(getter) && info.setter == Some(setter)
    ensures info.data.None?
  {
    AccessorInfo(name, attributes, true, true, false, Some(getter), Some(setter), None)
  }

  /** The property name each `...Info` function installs its accessor under. */
  function PropertyName(kind: InfoKind): string
  {
    match kind
    case StringLength => "length"
    case ScriptColumnOffset => "column_offset"
    case ScriptId => "id"
    case ScriptName => "name"
    case ScriptSource => "source"
    case ScriptLineOffset => "line_offset"
    case ScriptType => "type"
    case ScriptCompilationType => "compilation_type"
    case ScriptLineEnds => "line_ends"
    case ScriptContextData => "context_data"
    case ScriptEvalFromScript => "eval_from_script"
    case ScriptEvalFromScriptPosition => "eval_from_script_position"
    case ScriptEvalFromFunctionName => "eval_from_function_name"
  }

  /** `StringLengthInfo`, `ScriptIdInfo`, ...: the accessor for one built-in
      property, under its own name, with that property's getter and setter. */
  function InfoFor(kind: InfoKind, attributes: Attributes): (info: AccessorInfo)
    ensures info.name == PropertyName(kind)
    ensures info.getter == Some(InfoGetter(kind)) && info.setter == Some(InfoSetter(kind))
    ensures info.attributes == attributes
  {
    MakeAccessor(PropertyName(kind), InfoGetter(kind), InfoSetter(kind), attributes)
  }

  /** `MakeModuleExport`: the export's slot index is the auxiliary data, the
      getter is always installed, and the setter exactly when the export is not
      ReadOnly, so that a store to a read-only export takes the ordinary
      not-writable path. */
  function MakeModuleExport(name: string, index: int, attributes: Attributes): (info: AccessorInfo)
    ensures info.name == name && info.attributes == attributes && info.data == Some(index)
    ensures info.allCanRead && info.allCanWrite
    ensures info.getter == Some(ModuleGetExport)
    ensures info.setter.Some? <==> !attributes.readOnly
    ensures info.setter.Some? ==> info.setter.value == ModuleSetExport
  {
    AccessorInfo(name, attributes, true, true, false, Some(ModuleGetExport),
                 if attributes.readOnly then None else Some(ModuleSetExport), Some(index))
  }

  /** The built-in properties with a static `AccessorDescriptor`. */
  datatype NativeProperty = ArrayLength | FunctionPrototype | FunctionLength | FunctionName | FunctionArguments | FunctionCaller

  /** The setter half of a static descriptor: its own setter, or
      `ReadOnlySetAccessor`, which ignores the store. */
  datatype SetterKind = OwnSetter | ReadOnlySetter

  /** The setter each static descriptor pairs with its getter. */
  function DescriptorSetter(p: NativeProperty): SetterKind
  {
    match p
    case ArrayLength => OwnSetter
    case FunctionPrototype => OwnSetter
    case _ => ReadOnlySetter
  }

  /** `ReadOnlySetAccessor`: a store to a read-only property is silently
      ignored (section 8.6.2.2 of ECMA-262): it reports the stored value as
      the result and, having no state to change, changes none. */
  function ReadOnlySetAccessor(value: Value): Value
  {
    value
  }

  /** A function's `length`, `name`, `arguments` and `caller` are read-only;
      the array length and the function prototype have setters of their own. */
  lemma ReadOnlyDescriptors(p: NativeProperty)
    ensures DescriptorSetter(p) == ReadOnlySetter <==>
              p in {FunctionLength, FunctionName, FunctionArguments, FunctionCaller}
  {
  }
}
