# V8 accessors, modelled in Dafny

This project models `src/accessors.cc` of V8. That file holds the native
getters and setters behind JavaScript's built-in accessor properties:

- `Array.prototype.length` and a string's `length`;
- a function's `prototype`, `length`, `name`, `arguments` and `caller`;
- the properties of script objects (`id`, `source`, `compilation_type`,
  `eval_from_script`, ...);
- the accessors of module exports.

It also models the records that install them (`MakeAccessor`,
`MakeModuleExport`, the static `AccessorDescriptor`s) and the table the
optimizing compiler uses to turn some of them into field loads
(`IsJSObjectFieldAccessor`).

The heap is a map from references to objects. Each object has a prototype
link, a kind (plain, array, function, value wrapper, script wrapper,
arguments object), own properties and an "observed" flag. A ghost rank
proves that prototype chains end, and `FindInstanceOf` is a scan along
them. A realm gives the prototypes of primitive receivers. The stack is a
sequence of frames. A frame lists the functions it stands for, outermost
first, with inlinees after the functions they were inlined into, together
with the frame's actual parameters and the argument values that
deoptimization data gives for each inlined activation.

The accessors that change state are methods of the class
`Runtime.Isolate`:

- the prototype getter and setter;
- the array length setter;
- the `arguments` getter, which allocates an arguments object.

Each method is proved against pure functions, and those functions carry
the lemmas. `FrameFunctionIterator` is a class. Its ghost `all` is the innermost-first
list of the functions on the stack, and `taken` counts how many of them it has
returned so far. A module's
context is an `array` of slots.

Modules: `Values`, `Conversions` (ToNumber, ToUint32, SameValue), `Heap`,
`Descriptors`, `FieldAccessors`, `LengthAccessors`, `ScriptAccessors`,
`FunctionAccessors`, `Frames`, `ArgumentsAccessor`, `CallerAccessor`,
`Runtime`, `ModuleExports`.

Foreign calls become parameters:

| foreign call | parameter |
|---|---|
| ToPrimitive on an object, which may run user code | `objectToNumber` |
| `Compiler::EnsureCompiled` | `ensureCompiled` |
| `Script::GetWrapper` | `getWrapper` |
| `Code::SourcePosition` | `sourcePosition` |

## Model

| member | source | states |
|---|---|---|
| Heap.FindFrom | src/accessors.cc:66-72 | A found object is live and has the kind asked for. |
| Heap.FindInstanceOf | src/accessors.cc:66-72 | A found object is live and has the kind asked for. The scan starts at an object receiver, or at the prototype the realm gives a number, string or boolean; undefined and null find nothing. `FindFromIsFirstMatch` makes the result the first match on that chain. |
| Heap.FindFromIsFirstMatch | src/accessors.cc:66-72 | `FindInstanceOf` returns the first object on the prototype chain with the kind asked for. It returns NULL exactly when no object on the chain has it. |
| Heap.FindFromRefines | src/accessors.cc:66-72 | Scanning for a stronger kind may restart from the nearest object of a weaker kind. This is how the prototype getter's loop reaches a function with a prototype slot. |
| Heap.FindFromWeaker | src/accessors.cc:66-72 | If the chain holds an object of a stronger kind, the scan for a weaker kind finds something. |
| Heap.FindFromDescends | src/accessors.cc:66-72 | The scan only moves down the chain, which bounds the loop of the prototype getter. |
| Heap.FindFromUnchanged | src/accessors.cc:66-72 | A heap that keeps every prototype link and kind gives the same scan result, even after new objects are allocated. |
| Heap.Chain | src/accessors.cc:66-72 | The objects on the prototype chain are live. |
| Descriptors.MakeAccessor | src/accessors.cc:46-63 | The accessor info is all-can-read, all-can-write and overwritable. It carries the given name, attributes, getter and setter, and no data. |
| Descriptors.InfoFor | src/accessors.cc:285-296 | Each `...Info` installs its own getter and setter under its own property name, with the given attributes. |
| Descriptors.MakeModuleExport | src/accessors.cc:1194-1211 | The data is the slot index and the getter is always set. The setter is set exactly when the export is not ReadOnly. |
| Descriptors.ReadOnlyDescriptors | src/accessors.cc:895-1146 | `length`, `name`, `arguments` and `caller` pair their getter with `ReadOnlySetAccessor`. `Array.prototype.length` and `prototype` have setters of their own. |
| FieldAccessors.CheckForName | src/accessors.cc:103-112 | True exactly on a name match. The out-parameter is written with the offset exactly then and is otherwise left as it was. |
| FieldAccessors.IsJSObjectFieldAccessor | src/accessors.cc:117-157 | The type switch of the compiler's field-access check. What it answers is stated by `IsJSObjectFieldAccessorMatchesTable`. |
| FieldAccessors.IsJSObjectFieldAccessorMatchesTable | src/accessors.cc:117-157 | The result is true exactly for the eight (holder, name) pairs of the allow-list, with that pair's offset. Otherwise the out-parameter is untouched. String takes precedence over the class check. |
| LengthAccessors.ArrayGetLength | src/accessors.cc:177-183 | The getter of `Array.prototype.length`. `ArrayGetLengthIsNearestArray` states its result. |
| LengthAccessors.ArrayGetLengthIsNearestArray | src/accessors.cc:177-183 | The length is that of the first array on the chain, or 0 when the chain has none. |
| LengthAccessors.FlattenNumber | src/accessors.cc:186-199 | A Number wrapper with the initial map yields the number it wraps. Every other value comes back unchanged. |
| LengthAccessors.FlattenNumberIdempotent | src/accessors.cc:186-199 | Flattening twice equals flattening once. |
| LengthAccessors.FlattenNumberBypassesValueOf | src/accessors.cc:186-199 | ToNumber of a flattened plain Number wrapper is the number it wraps, whatever the object conversion (`valueOf`) would give. |
| LengthAccessors.NewArrayLength | src/accessors.cc:222-242 | The length check of the array length setter. `NewArrayLengthAcceptsExactUint32` states exactly which values it accepts, and as what. |
| LengthAccessors.NewArrayLengthAcceptsExactUint32 | src/accessors.cc:222-242 | A new length is accepted exactly when it is an integer in [0, 2^32), and is then that integer. Any other number is a RangeError "invalid_array_length". An exception from the conversion is passed on. |
| LengthAccessors.NewArrayLengthOfInteger | src/accessors.cc:222-238 | A string whose ToNumber is an integer below 2^32 is accepted as that integer. |
| LengthAccessors.NewArrayLengthOfDigitString | src/accessors.cc:222-238 | A decimal digit string below 2^32 is accepted as the integer it spells. |
| LengthAccessors.NewArrayLengthSkipsWhiteSpace | src/accessors.cc:226-231 | White space before a digit string, a Unicode space separator such as U+3000 included, is skipped by the conversion, so the string still gives the length it spells. |
| LengthAccessors.NewArrayLengthRejects | src/accessors.cc:233-242 | 3.5, -1 and 2^32 are rejected with the RangeError. |
| LengthAccessors.Utf16Length | src/accessors.cc:267 | `String::length` counts UTF-16 code units: between one and two per character, and exactly one per character when no character lies outside the Basic Multilingual Plane. |
| LengthAccessors.StringLengthGetter | src/accessors.cc:257-274 | The result is the length in UTF-16 code units of a string or of a wrapped string, and 0 for anything else. |
| LengthAccessors.SupplementaryCharacterCountsTwice | src/accessors.cc:257-274 | A string of one character outside the Basic Multilingual Plane has length 2. |
| Conversions.NumberToUint32 | src/accessors.cc:226-228 | ToUint32 is below 2^32 and is the identity on integers in range. |
| Conversions.ToUint32 | src/accessors.cc:226-228 | ToUint32 fails exactly when ToNumber fails, with the same error. |
| Conversions.ExactUint32 | src/accessors.cc:233 | ToUint32(v) equals ToNumber(v) exactly when the number is an integer in [0, 2^32). |
| Conversions.DigitStringToNumber | src/accessors.cc:229-231 | ToNumber of a decimal digit string is the integer it spells. |
| Conversions.LeadingWhiteSpaceIsIgnored | src/accessors.cc:229-231 | StrWhiteSpaceChar before the literal, the Unicode space separators included, does not change ToNumber's result. |
| ScriptAccessors.CompilationTypeCode | src/accessors.cc:518-528 | HOST is 0 and EVAL is 1. |
| ScriptAccessors.ScriptCompilationTypeGetter | src/accessors.cc:518-528 | The getter yields Smi 0 or Smi 1, and Smi 1 exactly for eval code. |
| ScriptAccessors.ScriptEvalFromScriptGetter | src/accessors.cc:638-657 | The result is undefined exactly when the script has no `eval_from_shared` or that function has no script. Otherwise it is a wrapper object. |
| ScriptAccessors.EvalFromScriptReadsCallingScript | src/accessors.cc:646-654 | The wrapper returned boxes the calling script, and reading a field of it reads that script's field. |
| ScriptAccessors.ScriptEvalFromScriptPositionGetter | src/accessors.cc:685-703 | The result is undefined exactly for HOST scripts. For EVAL scripts it is the source position of the eval call. |
| ScriptAccessors.EvalPositionDefinedForEvalScripts | src/accessors.cc:685-703 | The position is defined exactly when `compilation_type` reads 1. |
| ScriptAccessors.ScriptEvalFromFunctionNameGetter | src/accessors.cc:731-749 | The result is the calling function's name, or its inferred name when the name is undefined. |
| FunctionAccessors.FunctionGetLength | src/accessors.cc:875-892 | The `length` getter. `FunctionGetLengthCompilesOnlyWhenNeeded` states its result for a compiled function, after a successful compilation and after a failed one; `NoFunctionOnChain` states it when no function is on the chain. |
| FunctionAccessors.FunctionGetName | src/accessors.cc:906-914 | The `name` getter. `FunctionOwnNameAndLength` and `NoFunctionOnChain` state its results. |
| FunctionAccessors.FunctionGetLengthCompilesOnlyWhenNeeded | src/accessors.cc:875-892 | A compiled function reports its stored count. Only an uncompiled one consults the compiler: it reports the count that a successful compilation gives, and the getter fails exactly when that compilation fails, with its error. |
| FunctionAccessors.FunctionOwnNameAndLength | src/accessors.cc:875-914 | A compiled function reports its own name and formal parameter count. |
| FunctionAccessors.NoFunctionOnChain | src/accessors.cc:875-914 | With no function on the chain, the name is undefined and the length is 0, and the compiler is not consulted. |
| Frames.FrameFunctionIterator.constructor | src/accessors.cc:1046-1051 | A new iterator has the whole innermost-first function list still to come. |
| Frames.FrameFunctionIterator.GetFunctions | src/accessors.cc:1075-1083 | Loading the next frame leaves exactly that frame's functions (inlinees first) and the frames below it to come. |
| Frames.FrameFunctionIterator.Next | src/accessors.cc:1052-1060 | Returns the first remaining function and removes it, or returns NULL when nothing remains. |
| Frames.FrameFunctionIterator.Find | src/accessors.cc:1065-1072 | Reports true exactly when the function is still to come. If so, the iterator stops just past its first occurrence; if not, it is exhausted. |
| CallerAccessor.FirstNonToplevelIsFirst | src/accessors.cc:1108-1113 | Finds the first function that is not top-level code, and every function skipped is top-level. |
| CallerAccessor.EndOfBuiltinRunIsEnd | src/accessors.cc:1115-1121 | Finds the end of a run of builtins, and every function in the run is a builtin. |
| CallerAccessor.CallerAfter | src/accessors.cc:1108-1138 | The caller chosen among the functions after a position on the stack is null, or one of those functions that is neither bound nor strict. |
| CallerAccessor.SelectCaller | src/accessors.cc:1090-1139 | What `caller` yields, for every heap and stack. `CallerIsSloppyAndOuter`, `ToplevelOnlyMeansNoCaller`, `DirectCaller` and `BuiltinRunIsSkipped` state its results, and `FunctionGetCaller` computes it. |
| CallerAccessor.CallerIsSloppyAndOuter | src/accessors.cc:1090-1139 | `caller` is undefined exactly when no function is on the chain. A function it reveals lies beyond the target's innermost activation and is sloppy and not bound. |
| CallerAccessor.ToplevelOnlyMeansNoCaller | src/accessors.cc:1110-1113 | With only top-level code after the target, the result is null. |
| CallerAccessor.DirectCaller | src/accessors.cc:1110-1138 | A plain sloppy-mode function right after the target is reported as its caller. |
| CallerAccessor.BuiltinRunIsSkipped | src/accessors.cc:1115-1124 | After a run of non-native builtins, the result is the function that called into the run. |
| CallerAccessor.NextNonToplevel | src/accessors.cc:1108-1113 | The do-while loop stops at the first non-top-level function, or returns NULL. |
| CallerAccessor.CollapseBuiltins | src/accessors.cc:1117-1121 | The loop leaves the caller at the last builtin of the run and the potential caller just after the run. |
| CallerAccessor.CallerFromIterator | src/accessors.cc:1108-1138 | The loops and the censoring of the result compute `CallerAfter` of the iterator's list, from the position the iterator has reached. |
| CallerAccessor.IteratorPast | src/accessors.cc:1100-1106 | A fresh iterator finds the target exactly when it is on the stack, and then stands just past its innermost activation. |
| CallerAccessor.FunctionGetCaller | src/accessors.cc:1090-1139 | The method's result equals the specification `SelectCaller` for every heap and stack. |
| ArgumentsAccessor.LastIndexOf | src/accessors.cc:980-982 | Finds the innermost position of the function within one frame. |
| ArgumentsAccessor.FindInvocation | src/accessors.cc:977-983 | Finds the first frame from the top that holds the function, at its innermost position there. The result is None exactly when no frame holds it. |
| Runtime.LastPosition | src/accessors.cc:980-982 | The downward scan of one frame returns -1 exactly when the frame does not hold the function, and otherwise its innermost position. |
| Runtime.FindInvocationOnStack | src/accessors.cc:976-983 | The nested frame loops compute `FindInvocation`: the first frame from the top that holds the function, at its innermost position. |
| ArgumentsAccessor.ArgumentsOf | src/accessors.cc:966-1029 | What `arguments` yields, for every heap and stack. `ArgumentsOfOutcomes` and `ArgumentsAtInnermostActivation` state its results, and `FunctionGetArguments` computes it. |
| ArgumentsAccessor.AtInvocation | src/accessors.cc:984-1022 | The answer once the activation is found. `ArgumentsAtInnermostActivation` states it for the innermost activation. |
| ArgumentsAccessor.ArgumentsOfOutcomes | src/accessors.cc:966-1029 | The result is undefined without a function, and null for a native function or one with no activation on the stack. A fresh arguments object belongs to a non-native function on the stack and holds either a frame's parameters or an inlined activation's values. Any other value returned is an unoptimized frame's own `arguments` object. |
| ArgumentsAccessor.ArgumentsAtInnermostActivation | src/accessors.cc:976-1022 | For the first frame from the top that holds the function, at its innermost position there: an inlined activation gets its deoptimization values; otherwise an unoptimized frame's own `arguments` object is returned, and failing that a fresh object with the frame's actual parameters. |
| ArgumentsAccessor.SameActivationAsCaller | src/accessors.cc:977-983 | The frame search of `arguments` succeeds exactly when `caller`'s iterator would find the function. It selects the same activation, the first in innermost-first order. |
| Runtime.Isolate.SetPrototype | src/accessors.cc:814 | Only the function's prototype slot changes, and no prototype link moves. |
| Runtime.Isolate.PrototypeHolder | src/accessors.cc:801-808 | The loop finds the nearest function on the chain that has a prototype slot. |
| Runtime.Isolate.FunctionGetPrototype | src/accessors.cc:798-818 | The result is undefined without a function. Otherwise it is the existing prototype, or a fresh prototype object whose `constructor` is the function, which is stored. At most one allocation happens, and no prototype link changes. |
| Runtime.Isolate.MaterializedPrototype | src/accessors.cc:810-817 | Afterwards the slot holds the result. An existing prototype is returned with nothing changed; otherwise one fresh prototype object is allocated and stored. |
| Runtime.Isolate.FunctionGetPrototypeIsCached | src/accessors.cc:810-817 | Two reads give the same object, and at most one of them allocates. |
| Runtime.Isolate.StorePrototype | src/accessors.cc:842-857 | The slot takes the value. An observed store queues one "update" record holding the old prototype (created if missing) exactly when SameValue fails. |
| Runtime.Isolate.OldPrototype | src/accessors.cc:844-849 | The old value of an observed store is the current prototype, or a fresh prototype object that is allocated but not stored. |
| Runtime.Isolate.EnqueueUpdate | src/accessors.cc:854-857 | The change log gains one "update" record with the old value exactly when SameValue fails, and the heap is unchanged. |
| Runtime.Isolate.SetOwnPrototypeProperty | src/accessors.cc:832-839 | The receiver gains an own `prototype` data property and nothing else changes. |
| Runtime.Isolate.FunctionSetPrototype | src/accessors.cc:821-860 | Without a function, the result is undefined and nothing changes. A function without a prototype slot gives an own property on the receiver. Otherwise the prototype store happens, observed only when the receiver is that function and is observed. The whole new heap and change log are stated. |
| Runtime.Isolate.SetThenGetPrototype | src/accessors.cc:798-860 | Reading `prototype` after storing it yields the stored value, whatever it is. |
| Runtime.Isolate.ArraySetLength | src/accessors.cc:202-243 | A non-array receiver gets an own `length` property. For an array, the conversion error or RangeError changes nothing. An accepted length replaces the old one and drops every element at or beyond it. |
| Runtime.Isolate.SetThenGetLength | src/accessors.cc:177-243 | Reading `length` after a store yields the accepted length, or the old length when the store was rejected. |
| Runtime.Truncated | src/accessors.cc:233-238 | The elements kept are exactly those below the new length, with their values. |
| Runtime.Isolate.NewArgumentsObject | src/accessors.cc:950-959 | Exactly one object is allocated: a fresh arguments object for the callee holding the given elements. The rest of the heap and the change log are unchanged. |
| Runtime.Isolate.ConstructArgumentsObjectForInlinedFunction | src/accessors.cc:938-963 | A fresh arguments object for the inlined function, holding the deoptimization values of that activation in order. |
| Runtime.Isolate.ArgumentsFromParameters | src/accessors.cc:1006-1022 | A fresh arguments object holding the frame's actual parameters in order. |
| Runtime.Isolate.AnswerInvocation | src/accessors.cc:984-1022 | Once the activation is found, the answer is `AtInvocation`: an inlined activation or a frame without a usable stack `arguments` value gets one fresh arguments object with the elements named; otherwise the stack value is returned and the heap is unchanged. |
| Runtime.Isolate.FunctionGetArguments | src/accessors.cc:966-1029 | The nested frame loops compute `ArgumentsOf`. An existing value leaves the heap unchanged; otherwise exactly one arguments object is allocated with the elements `ArgumentsOf` names. |
| Runtime.StoredPrototypeIsFound | src/accessors.cc:801-808 | After a prototype store, the getter's search finds the same function, holding the value stored. |
| Runtime.ScansSurvive | src/accessors.cc:66-72 | Allocation and prototype stores do not change what `FindInstanceOf` finds. |
| ModuleExports.ModuleGetExport | src/accessors.cc:1153-1170 | A hole gives ReferenceError "not_defined" naming the export. Otherwise the result is the slot's value. |
| ModuleExports.ModuleSetExport | src/accessors.cc:1173-1191 | A hole gives the ReferenceError and leaves the context unchanged. Otherwise only that slot changes, to the value. |
| ModuleExports.SetThenGetExport | src/accessors.cc:1153-1191 | A successful store is seen by the next read. A failed one leaves the read failing with the same error. |
| ModuleExports.NotDefinedError | src/accessors.cc:1160-1165 | The error is a ReferenceError with message "not_defined" and the export name as its only argument. |

## Left out

- The setters of `StringLength` and of every script property (src/accessors.cc:277-282 and each `Script...Setter`), `IllegalSetter` and `IllegalGetAccessor` (src/accessors.cc:76-90): each is `UNREACHABLE()`. A member nobody may call has nothing to state, so the descriptors name these setters only as the `InfoSetter` callback.
- `ScriptLineEndsGetter` (src/accessors.cc:556-573): it calls `Script::InitLineEnds`, which computes line ends in code that is not part of this model. Only its descriptor (`ScriptLineEnds`) is modelled.
- The `Handle<Object>` wrappers using `CALL_HEAP_FUNCTION` (src/accessors.cc:777-795, 929-935): they only retry on allocation failure. Handles, handle scopes and garbage collection are not modelled either.
- `ScriptAccessors.ScriptFieldGetter`: it has no contract beyond reading the field, because that is all the getter does. `EvalFromScriptReadsCallingScript` states the useful property.
- `Descriptors.ReadOnlySetAccessor`: it returns the stored value and changes nothing. This is already its whole behaviour, so it carries no separate contract.
- LengthAccessors.StringLengthGetter: a string is a sequence of Unicode scalar values, and `Utf16Length` counts two code units for each character outside the Basic Multilingual Plane. A string holding a lone surrogate cannot be represented, so its length is not modelled.
- LengthAccessors.NewArrayLength: `Execution::ToUint32` and `Execution::ToNumber` (src/accessors.cc:226-231) each run ToPrimitive on an object, so a user `valueOf` runs twice. The model answers both calls from the one `objectToNumber` oracle, so it cannot produce a `valueOf` that returns different numbers on the two calls, or one that throws only on the second. `NewArrayLengthAcceptsExactUint32` relies on the two answers agreeing.
- Conversions.ToNumber: the space separators of StrWhiteSpaceChar are those of Unicode before version 6.3, U+180E included. Other Unicode versions differ only in that character.
- Runtime.Isolate.ArraySetLength: the result of `JSArray::SetElementsLength` is taken to be the array itself. Its internals (element kinds, non-deletable elements, the length of dictionary arrays) are not part of this model. The failure path of `SetLocalPropertyIgnoreAttributes` is not modelled.
- Runtime.Isolate.FunctionSetPrototype: the failure path of `SetLocalPropertyIgnoreAttributes` is not modelled. `JSFunction::SetPrototype` is modelled as a store into the prototype slot, without V8's map transitions for non-object prototypes.
- Object.observe: only the queueing of the change record is modelled, not its delivery.
- ToNumber of an object: user code run by ToPrimitive is an oracle result; its effects on the heap are not modelled.
- Numbers are exact reals plus NaN and the two infinities. There is no negative zero and no rounding to doubles. The string grammar of ToNumber reads decimal literals exactly.
- Function `length`: the heap effects of compilation are not modelled. `ensureCompiled` only returns the parameter count or the exception.
- ArgumentsAccessor.ArgumentsOfOutcomes: it does not say that an existing `arguments` slot value is always returned as it is, since that value may itself be undefined or null.
- The frame model gives each frame its actual parameters directly, so `AdvanceToArgumentsFrame` (adaptor frames) is folded into the `parameters` field.
- The scope-info lookup of the `arguments` stack slot is folded into the frame's `argumentsLocal` field.
