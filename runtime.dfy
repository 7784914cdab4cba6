/**
 * The accessors that change the heap: the function prototype getter and
 * setter (src/accessors.cc:798-860), the array length setter
 * (src/accessors.cc:202-243) and the `arguments` getter with its arguments
 * object builders (src/accessors.cc:938-1029). The heap is a class whose
 * methods allocate objects and update them in place.
 */
module Runtime {
  import opened Values
  import opened Heap
  import opened Conversions
  import opened LengthAccessors
  import opened Frames
  import opened ArgumentsAccessor

  /** An entry of the change-record queue of Object.observe
      (`JSObject::EnqueueChangeRecord`). */
  datatype ChangeRecord = ChangeRecord(object: Ref, changeType: string, name: string, oldValue: Value)

  /** No array has an element at or beyond its length. */
  predicate ArraysInBounds(objs: Objects)
  {
    forall r, i :: r in objs && objs[r].kind.ArrayObject? && i in objs[r].kind.elements ==> i < objs[r].kind.length
  }

  /** The elements of an array cut down to a new length
      (`JSArray::SetElementsLength`). */
  function Truncated(elements: map<nat, Value>, n: nat): (e: map<nat, Value>)
    ensures forall i :: i in e <==> i in elements && i < n
    ensures forall i :: i in e ==> e[i] == elements[i]
  {
    map i | i in elements && i < n :: elements[i]
  }

  /** `Factory::NewFunctionPrototype`: a fresh plain object inheriting from
      the initial object prototype, whose `constructor` is the function. */
  function NewFunctionPrototype(realm: Realm, f: Ref): HeapObject
  {
    HeapObject(realm.objectPrototype, PlainObject, map["constructor" := Obj(f)], false)
  }

  /** `Factory::NewArgumentsObject` with its elements filled in. */
  function ArgumentsObjectFor(realm: Realm, callee: Ref, elements: seq<Value>): HeapObject
  {
    HeapObject(realm.objectPrototype, ArgumentsObject(callee, elements), map[], false)
  }

  /** A function object whose prototype slot holds `v`. */
  function WithPrototype(o: HeapObject, v: Value): HeapObject
    requires o.kind.FunctionObject?
  {
    o.(kind := o.kind.(prototype := Some(v)))
  }

  /** The change records an observed prototype store appends: one "update"
      record when the value changes, none when it stays the same. */
  function PrototypeUpdateRecords(f: Ref, oldValue: Value, value: Value): seq<ChangeRecord>
  {
    if SameValue(oldValue, value) then [] else [ChangeRecord(f, "update", "prototype", oldValue)]
  }

  /** `after` keeps every object of `before`, with its prototype link and
      whether it is a function with a prototype slot. */
  ghost predicate KeepsLinks(before: Objects, after: Objects)
  {
    forall r :: r in before ==>
      && r in after && after[r].proto == before[r].proto
      && IsFunction(after[r].kind) == IsFunction(before[r].kind)
      && IsPrototypeFunction(after[r].kind) == IsPrototypeFunction(before[r].kind)
  }

  /** Keeping the links composes. */
  lemma KeepsLinksTrans(a: Objects, b: Objects, c: Objects)
    requires KeepsLinks(a, b) && KeepsLinks(b, c)
    ensures KeepsLinks(a, c)
  {
  }

  /** Prototype chains walked through a heap that keeps the links find the
      same functions. */
  lemma ScansSurvive(objs: Objects, rank: map<Ref, nat>, objs': Objects, rank': map<Ref, nat>, realm: Realm, v: Value)
    requires Ranked(objs, rank) && Ranked(objs', rank') && Closed(objs) && KeepsLinks(objs, objs')
    requires ChainStart(realm, v).Some? ==> ChainStart(realm, v).value in objs
    ensures FindInstanceOf(objs', rank', realm, v, IsFunction) == FindInstanceOf(objs, rank, realm, v, IsFunction)
    ensures FindInstanceOf(objs', rank', realm, v, IsPrototypeFunction) == FindInstanceOf(objs, rank, realm, v, IsPrototypeFunction)
  {
    FindFromUnchanged(objs, rank, objs', rank', ChainStart(realm, v), IsFunction);
    FindFromUnchanged(objs, rank, objs', rank', ChainStart(realm, v), IsPrototypeFunction);
  }

  /** After a store into the prototype slot of the nearest function, that
      function is still the nearest one with a prototype slot, and it holds
      the value stored. */
  lemma StoredPrototypeIsFound(objs: Objects, rank: map<Ref, nat>, objs': Objects, rank': map<Ref, nat>,
                               realm: Realm, receiver: Ref, value: Value)
    requires Ranked(objs, rank) && Ranked(objs', rank') && Closed(objs) && KeepsLinks(objs, objs') && receiver in objs
    requires FindInstanceOf(objs, rank, realm, Obj(receiver), IsFunction).Some? ==>
               FindInstanceOf(objs, rank, realm, Obj(receiver), IsPrototypeFunction).Some?
    requires var h := FindInstanceOf(objs, rank, realm, Obj(receiver), IsFunction);
      h.Some? && objs[h.value].kind.shouldHavePrototype ==> objs'[h.value].kind.prototype == Some(value)
    ensures FindInstanceOf(objs', rank', realm, Obj(receiver), IsFunction).Some? ==>
              FindInstanceOf(objs', rank', realm, Obj(receiver), IsPrototypeFunction).Some?
    ensures FindInstanceOf(objs, rank, realm, Obj(receiver), IsFunction).None? ==>
              FindInstanceOf(objs', rank', realm, Obj(receiver), IsPrototypeFunction).None?
    ensures var h := FindInstanceOf(objs, rank, realm, Obj(receiver), IsFunction);
      h.Some? && objs[h.value].kind.shouldHavePrototype ==>
        && FindInstanceOf(objs', rank', realm, Obj(receiver), IsPrototypeFunction) == h
        && objs'[h.value].kind.prototype == Some(value)
  {
    ScansSurvive(objs, rank, objs', rank', realm, Obj(receiver));
    if FindInstanceOf(objs, rank, realm, Obj(receiver), IsFunction).Some? {
      FindFromRefines(objs, rank, Some(receiver), IsFunction, IsPrototypeFunction);
    } else if FindInstanceOf(objs, rank, realm, Obj(receiver), IsPrototypeFunction).Some? {
      FindFromWeaker(objs, rank, Some(receiver), IsFunction, IsPrototypeFunction);
    }
  }

  /** The scan of one frame's functions from the innermost: the last
      position of `fn`, or -1 when the frame does not hold it. */
  method LastPosition(functions: seq<Ref>, fn: Ref) returns (i: int)
    ensures -1 <= i < |functions|
    ensures i == -1 <==> fn !in functions
    ensures i >= 0 ==> LastIndexOf(functions, fn) == i
  {
    i := |functions| - 1;
    while i >= 0
      invariant -1 <= i < |functions|
      invariant forall j :: i < j < |functions| ==> functions[j] != fn
    {
      if functions[i] == fn {
        return;
      }
      i := i - 1;
    }
  }

  /** The walk of `FunctionGetArguments` over the frames from the top: the
      first frame holding `fn`, and the last position of `fn` in it. */
  method FindInvocationOnStack(frames: seq<Frame>, fn: Ref) returns (found: Option<(nat, nat)>)
    ensures found == FindInvocation(frames, 0, fn)
  {
    var k := 0;
    while k < |frames|
      invariant k <= |frames|
      invariant FindInvocation(frames, k, fn) == FindInvocation(frames, 0, fn)
    {
      var i := LastPosition(frames[k].functions, fn);
      if i >= 0 {
        return Some((k, i));
      }
      k := k + 1;
    }
    return None;
  }

  /** One step of the search of `FunctionGetPrototype`: from a function
      without a prototype slot, the nearest function on its prototype's chain
      exists, is nearer the end of the chain, and leads to the same function
      with a prototype slot. */
  lemma HolderStep(objs: Objects, rank: map<Ref, nat>, realm: Realm, fn: Ref, h: Option<Ref>)
    requires Ranked(objs, rank)
    requires fn in objs && objs[fn].kind.FunctionObject? && !objs[fn].kind.shouldHavePrototype
    requires FindFrom(objs, rank, Some(fn), IsPrototypeFunction) == h && h.Some?
    ensures var protoValue := if objs[fn].proto.Some? then Obj(objs[fn].proto.value) else Null;
      var next := FindInstanceOf(objs, rank, realm, protoValue, IsFunction);
      && next.Some? && objs[next.value].kind.FunctionObject?
      && FindFrom(objs, rank, next, IsPrototypeFunction) == h
      && Measure(objs, rank, next) < Measure(objs, rank, Some(fn))
  {
    var proto := objs[fn].proto;
    assert FindFrom(objs, rank, proto, IsPrototypeFunction) == h;
    FindFromWeaker(objs, rank, proto, IsFunction, IsPrototypeFunction);
    FindFromDescends(objs, rank, proto, IsFunction);
    FindFromRefines(objs, rank, proto, IsFunction, IsPrototypeFunction);
    var protoValue := if proto.Some? then Obj(proto.value) else Null;
    assert ChainStart(realm, protoValue) == proto;
  }

  /** A heap whose prototype chains are acyclic and stay inside it, whose
      arrays hold no element past their length, whose references all lie
      below `next`, and which holds the realm's prototypes. */
  ghost predicate HeapOk(objs: Objects, rank: map<Ref, nat>, next: Ref, realm: Realm)
  {
    && Ranked(objs, rank)
    && Closed(objs)
    && ArraysInBounds(objs)
    && (forall r :: r in objs ==> r < next)
    && (realm.objectPrototype.Some? ==> realm.objectPrototype.value in objs)
    && (realm.numberPrototype.Some? ==> realm.numberPrototype.value in objs)
    && (realm.stringPrototype.Some? ==> realm.stringPrototype.value in objs)
    && (realm.booleanPrototype.Some? ==> realm.booleanPrototype.value in objs)
  }

  /** The heap of one isolate and its queue of change records. */
  class Isolate {
    var objs: Objects
    var next: Ref                  // the reference the next allocation gets
    var changeLog: seq<ChangeRecord>
    ghost var rank: map<Ref, nat>
    const realm: Realm

    ghost predicate Valid()
      reads this
    {
      HeapOk(objs, rank, next, realm)
    }

    /** A value that names no dead object. */
    predicate Live(v: Value)
      reads this
    {
      v.Obj? ==> v.ref in objs
    }

    constructor (realm: Realm, objs: Objects, next: Ref, ghost rank: map<Ref, nat>)
      requires Ranked(objs, rank) && Closed(objs) && ArraysInBounds(objs)
      requires forall r :: r in objs ==> r < next
      requires realm.objectPrototype.Some? ==> realm.objectPrototype.value in objs
      requires realm.numberPrototype.Some? ==> realm.numberPrototype.value in objs
      requires realm.stringPrototype.Some? ==> realm.stringPrototype.value in objs
      requires realm.booleanPrototype.Some? ==> realm.booleanPrototype.value in objs
      ensures Valid()
      ensures this.objs == objs && this.next == next && this.realm == realm && changeLog == []
    {
      this.realm := realm;
      this.objs := objs;
      this.next := next;
      this.rank := rank;
      changeLog := [];
    }

    /** Allocate `o` at a fresh reference. */
    method Allocate(o: HeapObject) returns (r: Ref)
      requires Valid()
      requires o.proto.Some? ==> o.proto.value in objs
      requires o.kind.ArrayObject? ==> forall i :: i in o.kind.elements ==> i < o.kind.length
      modifies this
      ensures Valid()
      ensures r == old(next) && r !in old(objs)
      ensures objs == old(objs)[r := o] && next == old(next) + 1 && changeLog == old(changeLog)
      ensures KeepsLinks(old(objs), objs)
    {
      r := next;
      var newRank := if o.proto.Some? then rank[o.proto.value] + 1 else 0;
      forall x | x in objs
        ensures objs[x].proto.Some? ==> objs[x].proto.value != r
      {
      }
      rank := rank[r := newRank];
      objs := objs[r := o];
      next := next + 1;
    }

    /** `JSFunction::SetPrototype`: store `v` in the function's prototype slot. */
    method SetPrototype(f: Ref, v: Value)
      requires Valid() && f in objs && objs[f].kind.FunctionObject?
      modifies this
      ensures Valid()
      ensures objs == old(objs)[f := WithPrototype(old(objs)[f], v)] && KeepsLinks(old(objs), objs)
      ensures next == old(next) && changeLog == old(changeLog) && rank == old(rank)
    {
      objs := objs[f := WithPrototype(objs[f], v)];
    }

    /** The search of `FunctionGetPrototype`: the nearest function on the
        chain, then, while that function has no prototype slot, the nearest
        function on its own prototype's chain. It finds the nearest function
        with a prototype slot. The getter is only installed where such a
        function exists, so a function on the chain implies one with a
        prototype slot. */
    method PrototypeHolder(receiver: Value) returns (holder: Option<Ref>)
      requires Valid() && Live(receiver)
      requires FindInstanceOf(objs, rank, realm, receiver, IsFunction).Some? ==>
                 FindInstanceOf(objs, rank, realm, receiver, IsPrototypeFunction).Some?
      ensures holder == FindInstanceOf(objs, rank, realm, receiver, IsPrototypeFunction)
    {
      var start := ChainStart(realm, receiver);
      ghost var h := FindFrom(objs, rank, start, IsPrototypeFunction);
      var found := FindInstanceOf(objs, rank, realm, receiver, IsFunction);
      if found.None? {
        if h.Some? {
          FindFromWeaker(objs, rank, start, IsFunction, IsPrototypeFunction);
        }
        return None;
      }
      FindFromRefines(objs, rank, start, IsFunction, IsPrototypeFunction);
      var fn := found.value;
      while !objs[fn].kind.shouldHavePrototype
        invariant fn in objs && objs[fn].kind.FunctionObject?
        invariant FindFrom(objs, rank, Some(fn), IsPrototypeFunction) == h && h.Some?
        decreases Measure(objs, rank, Some(fn))
      {
        var proto := objs[fn].proto;
        var protoValue := if proto.Some? then Obj(proto.value) else Null;
        HolderStep(objs, rank, realm, fn, h);
        fn := FindInstanceOf(objs, rank, realm, protoValue, IsFunction).value;
      }
      return Some(fn);
    }

    /** `FunctionGetPrototype`: undefined without a function on the chain;
        otherwise the prototype of the nearest function with a prototype
        slot, created on first use (a fresh object whose `constructor` is the
        function) and stored in that slot. No prototype link changes. */
    method FunctionGetPrototype(receiver: Value) returns (r: Value)
      requires Valid() && Live(receiver)
      requires FindInstanceOf(objs, rank, realm, receiver, IsFunction).Some? ==>
                 FindInstanceOf(objs, rank, realm, receiver, IsPrototypeFunction).Some?
      modifies this
      ensures Valid() && changeLog == old(changeLog)
      ensures KeepsLinks(old(objs), objs)
      ensures var h := FindInstanceOf(old(objs), old(rank), realm, receiver, IsPrototypeFunction);
        h.Some? ==> objs[h.value].kind.prototype == Some(r)
      ensures var h := FindInstanceOf(old(objs), old(rank), realm, receiver, IsPrototypeFunction);
        && (h.None? ==> r == Undefined && objs == old(objs) && next == old(next))
        && (h.Some? && old(objs)[h.value].kind.prototype.Some? ==>
              r == old(objs)[h.value].kind.prototype.value && objs == old(objs) && next == old(next))
        && (h.Some? && old(objs)[h.value].kind.prototype.None? ==>
              && r == Obj(old(next)) && next == old(next) + 1
              && objs == old(objs)[old(next) := NewFunctionPrototype(realm, h.value)]
                                  [h.value := WithPrototype(old(objs)[h.value], r)])
    {
      var holder := PrototypeHolder(receiver);
      if holder.None? {
        return Undefined;
      }
      r := MaterializedPrototype(holder.value);
    }

    /** The prototype in the slot of `fn`, first creating it and storing it
        there when the slot is still empty. */
    method MaterializedPrototype(fn: Ref) returns (r: Value)
      requires Valid() && fn in objs && objs[fn].kind.FunctionObject?
      modifies this
      ensures Valid() && changeLog == old(changeLog) && KeepsLinks(old(objs), objs)
      ensures objs[fn].kind.prototype == Some(r)
      ensures old(objs)[fn].kind.prototype.Some? ==>
        r == old(objs)[fn].kind.prototype.value && objs == old(objs) && next == old(next)
      ensures old(objs)[fn].kind.prototype.None? ==>
        && r == Obj(old(next)) && next == old(next) + 1
        && objs == old(objs)[old(next) := NewFunctionPrototype(realm, fn)][fn := WithPrototype(old(objs)[fn], r)]
    {
      if objs[fn].kind.prototype.Some? {
        return objs[fn].kind.prototype.value;
      }
      ghost var objs0 := objs;
      var p := Allocate(NewFunctionPrototype(realm, fn));
      ghost var objs1 := objs;
      SetPrototype(fn, Obj(p));
      KeepsLinksTrans(objs0, objs1, objs);
      r := Obj(p);
    }

    /** Reading a function's `prototype` twice gives the same object, and at
        most the first read allocates. */
    method FunctionGetPrototypeIsCached(receiver: Value) returns (first: Value, second: Value)
      requires Valid() && Live(receiver)
      requires FindInstanceOf(objs, rank, realm, receiver, IsFunction).Some? ==>
                 FindInstanceOf(objs, rank, realm, receiver, IsPrototypeFunction).Some?
      modifies this
      ensures Valid()
      ensures first == second
      ensures next <= old(next) + 1
    {
      ghost var objs0, rank0 := objs, rank;
      ghost var h := FindInstanceOf(objs, rank, realm, receiver, IsPrototypeFunction);
      first := FunctionGetPrototype(receiver);
      ScansSurvive(objs0, rank0, objs, rank, realm, receiver);
      assert FindInstanceOf(objs, rank, realm, receiver, IsPrototypeFunction) == h;
      ghost var n1 := next;
      second := FunctionGetPrototype(receiver);
      assert next == n1;
    }

    /** The store of `FunctionSetPrototype` into a function with a prototype
        slot. When the store is observed, the old value (the current
        prototype, or a fresh one if none had been made yet) goes into an
        "update" record, queued unless the value stays the same. */
    method StorePrototype(fn: Ref, value: Value, observed: bool)
      requires Valid() && fn in objs && IsPrototypeFunction(objs[fn].kind)
      modifies this
      ensures Valid() && KeepsLinks(old(objs), objs)
      ensures !observed ==>
        objs == old(objs)[fn := WithPrototype(old(objs)[fn], value)] && next == old(next) && changeLog == old(changeLog)
      ensures observed && old(objs)[fn].kind.prototype.Some? ==>
        && objs == old(objs)[fn := WithPrototype(old(objs)[fn], value)] && next == old(next)
        && changeLog == old(changeLog) + PrototypeUpdateRecords(fn, old(objs)[fn].kind.prototype.value, value)
      ensures observed && old(objs)[fn].kind.prototype.None? ==>
        && objs == old(objs)[old(next) := NewFunctionPrototype(realm, fn)][fn := WithPrototype(old(objs)[fn], value)]
        && next == old(next) + 1
        && changeLog == old(changeLog) + PrototypeUpdateRecords(fn, Obj(old(next)), value)
    {
      if !observed {
        SetPrototype(fn, value);
        return;
      }
      ghost var objs0 := objs;
      var oldValue := OldPrototype(fn);
      ghost var objs1 := objs;
      SetPrototype(fn, value);
      KeepsLinksTrans(objs0, objs1, objs);
      EnqueueUpdate(fn, oldValue, value);
    }

    /** The old value an observed store reports: the current prototype, or a
        fresh one (not stored in the slot) when none has been made yet. */
    method OldPrototype(fn: Ref) returns (oldValue: Value)
      requires Valid() && fn in objs && objs[fn].kind.FunctionObject?
      modifies this
      ensures Valid() && changeLog == old(changeLog) && KeepsLinks(old(objs), objs)
      ensures old(objs)[fn].kind.prototype.Some? ==>
        oldValue == old(objs)[fn].kind.prototype.value && objs == old(objs) && next == old(next)
      ensures old(objs)[fn].kind.prototype.None? ==>
        && oldValue == Obj(old(next)) && next == old(next) + 1
        && objs == old(objs)[old(next) := NewFunctionPrototype(realm, fn)]
    {
      if objs[fn].kind.prototype.Some? {
        return objs[fn].kind.prototype.value;
      }
      var p := Allocate(NewFunctionPrototype(realm, fn));
      return Obj(p);
    }

    /** Queue the "update" record of a prototype store unless the value stays
        the same (`JSObject::EnqueueChangeRecord`). */
    method EnqueueUpdate(fn: Ref, oldValue: Value, value: Value)
      modifies this
      ensures objs == old(objs) && next == old(next) && rank == old(rank)
      ensures changeLog == old(changeLog) + PrototypeUpdateRecords(fn, oldValue, value)
    {
      if !SameValue(oldValue, value) {
        changeLog := changeLog + [ChangeRecord(fn, "update", "prototype", oldValue)];
      }
    }

    /** `JSObject::SetLocalPropertyIgnoreAttributes` for `prototype`: an own
        data property of the receiver. */
    method SetOwnPrototypeProperty(receiver: Ref, value: Value)
      requires Valid() && receiver in objs
      modifies this
      ensures Valid() && KeepsLinks(old(objs), objs) && next == old(next) && changeLog == old(changeLog)
      ensures objs == old(objs)[receiver := old(objs)[receiver].(properties := old(objs)[receiver].properties["prototype" := value])]
    {
      objs := objs[receiver := objs[receiver].(properties := objs[receiver].properties["prototype" := value])];
    }

    /** `FunctionSetPrototype`: undefined and no change without a function on
        the chain; an own `prototype` data property on the receiver when
        that function has no prototype slot (the receiver cannot have one
        already, since the accessor was reached); otherwise the store above,
        observed when the receiver is that function and is observed. No
        prototype link changes. */
    method FunctionSetPrototype(receiver: Ref, value: Value) returns (r: Value)
      requires Valid() && receiver in objs
      modifies this
      ensures Valid() && KeepsLinks(old(objs), objs)
      ensures var h := FindInstanceOf(old(objs), old(rank), realm, Obj(receiver), IsFunction);
        h.Some? && old(objs)[h.value].kind.shouldHavePrototype ==> objs[h.value].kind.prototype == Some(value)
      ensures var h := FindInstanceOf(old(objs), old(rank), realm, Obj(receiver), IsFunction);
        && (h.None? ==>
              r == Undefined && objs == old(objs) && next == old(next) && changeLog == old(changeLog))
        && (h.Some? && !old(objs)[h.value].kind.shouldHavePrototype ==>
              && r == value && next == old(next) && changeLog == old(changeLog)
              && objs == old(objs)[receiver := old(objs)[receiver].(properties := old(objs)[receiver].properties["prototype" := value])])
        && (h.Some? && old(objs)[h.value].kind.shouldHavePrototype ==>
              var f := h.value;
              var observed := f == receiver && old(objs)[f].observed;
              && r == Obj(f)
              && (!observed ==> objs == old(objs)[f := WithPrototype(old(objs)[f], value)]
                                && next == old(next) && changeLog == old(changeLog))
              && (observed && old(objs)[f].kind.prototype.Some? ==>
                    && objs == old(objs)[f := WithPrototype(old(objs)[f], value)] && next == old(next)
                    && changeLog == old(changeLog) + PrototypeUpdateRecords(f, old(objs)[f].kind.prototype.value, value))
              && (observed && old(objs)[f].kind.prototype.None? ==>
                    && objs == old(objs)[old(next) := NewFunctionPrototype(realm, f)][f := WithPrototype(old(objs)[f], value)]
                    && next == old(next) + 1
                    && changeLog == old(changeLog) + PrototypeUpdateRecords(f, Obj(old(next)), value)))
    {
      var found := FindInstanceOf(objs, rank, realm, Obj(receiver), IsFunction);
      if found.None? {
        return Undefined;
      }
      var fn := found.value;
      if !objs[fn].kind.shouldHavePrototype {
        SetOwnPrototypeProperty(receiver, value);
        return value;
      }
      var isObserved := fn == receiver && objs[fn].observed;
      StorePrototype(fn, value, isObserved);
      return Obj(fn);
    }

    /** Storing a function's `prototype` and reading it back gives the value
        stored, whatever it is; without a function on the chain both give
        undefined. */
    method SetThenGetPrototype(receiver: Ref, value: Value) returns (stored: Value, read: Value)
      requires Valid() && receiver in objs
      requires FindInstanceOf(objs, rank, realm, Obj(receiver), IsFunction).Some? ==>
                 FindInstanceOf(objs, rank, realm, Obj(receiver), IsPrototypeFunction).Some?
      modifies this
      ensures Valid()
      ensures var h := FindInstanceOf(old(objs), old(rank), realm, Obj(receiver), IsFunction);
        && (h.None? ==> stored == Undefined && read == Undefined)
        && (h.Some? && old(objs)[h.value].kind.shouldHavePrototype ==> stored == Obj(h.value) && read == value)
    {
      ghost var objs0, rank0 := objs, rank;
      stored := FunctionSetPrototype(receiver, value);
      StoredPrototypeIsFound(objs0, rank0, objs, rank, realm, receiver, value);
      read := FunctionGetPrototype(Obj(receiver));
    }

    /** `ArraySetLength`: on a receiver that is not itself an array (one that
        inherits from an array), `value` becomes an own `length` data property
        as it is; on an array, the length check of `NewArrayLength` decides
        between a RangeError (or the conversion's exception) that changes
        nothing, and the new length, which drops every element at or beyond
        it. The result of `JSArray::SetElementsLength` is taken to be the
        array. */
    method ArraySetLength(receiver: Ref, value: Value, objectToNumber: Ref -> Result<Number>) returns (r: Result<Value>)
      requires Valid() && receiver in objs
      modifies this
      ensures Valid() && next == old(next) && changeLog == old(changeLog)
      ensures var o := old(objs)[receiver];
        && (!o.kind.ArrayObject? ==>
              r == Ok(value) && objs == old(objs)[receiver := o.(properties := o.properties["length" := value])])
        && (o.kind.ArrayObject? && NewArrayLength(old(objs), value, objectToNumber).Err? ==>
              r == Err(NewArrayLength(old(objs), value, objectToNumber).error) && objs == old(objs))
        && (o.kind.ArrayObject? && NewArrayLength(old(objs), value, objectToNumber).Ok? ==>
              var n := NewArrayLength(old(objs), value, objectToNumber).value;
              r == Ok(Obj(receiver))
              && objs == old(objs)[receiver := o.(kind := ArrayObject(n, Truncated(o.kind.elements, n)))])
    {
      var o := objs[receiver];
      if !o.kind.ArrayObject? {
        objs := objs[receiver := o.(properties := o.properties["length" := value])];
        return Ok(value);
      }
      var length := NewArrayLength(objs, value, objectToNumber);
      if length.Err? {
        return Err(length.error);
      }
      var n := length.value;
      objs := objs[receiver := o.(kind := ArrayObject(n, Truncated(o.kind.elements, n)))];
      return Ok(Obj(receiver));
    }

    /** Setting an array's `length` and reading it back gives the accepted
        length; a rejected length leaves the old one. */
    method SetThenGetLength(receiver: Ref, value: Value, objectToNumber: Ref -> Result<Number>) returns (r: Result<Value>, length: Value)
      requires Valid() && receiver in objs && objs[receiver].kind.ArrayObject?
      modifies this
      ensures Valid()
      ensures var n := NewArrayLength(old(objs), value, objectToNumber);
        && (n.Ok? ==> r == Ok(Obj(receiver)) && length == Smi(n.value))
        && (n.Err? ==> r == Err(n.error) && length == Smi(old(objs)[receiver].kind.length))
    {
      r := ArraySetLength(receiver, value, objectToNumber);
      length := ArrayGetLength(objs, rank, realm, Obj(receiver));
    }

    /** Allocate an arguments object for `callee` with the given elements. */
    method NewArgumentsObject(callee: Ref, elements: seq<Value>) returns (r: Value)
      requires Valid()
      modifies this
      ensures Valid() && changeLog == old(changeLog)
      ensures r == Obj(old(next)) && next == old(next) + 1
      ensures objs == old(objs)[old(next) := ArgumentsObjectFor(realm, callee, elements)]
    {
      var p := Allocate(ArgumentsObjectFor(realm, callee, elements));
      return Obj(p);
    }

    /** `ConstructArgumentsObjectForInlinedFunction`: a fresh arguments object
        whose elements are, in order, the values the deoptimization data gives
        for the inlined activation at `index`. */
    method ConstructArgumentsObjectForInlinedFunction(frame: Frame, inlinedFunction: Ref, index: nat) returns (r: Value)
      requires Valid() && index < |frame.inlinedArguments|
      modifies this
      ensures Valid() && changeLog == old(changeLog)
      ensures r == Obj(old(next)) && next == old(next) + 1
      ensures objs == old(objs)[old(next) := ArgumentsObjectFor(realm, inlinedFunction, frame.inlinedArguments[index])]
    {
      var slotRefs := frame.inlinedArguments[index];
      var argsCount := |slotRefs|;
      var elements := new Value[argsCount];
      for i := 0 to argsCount
        modifies elements
        invariant elements[..i] == slotRefs[..i]
      {
        elements[i] := slotRefs[i];
      }
      assert elements[..] == slotRefs;
      r := NewArgumentsObject(inlinedFunction, elements[..]);
    }

    /** The fallback of `FunctionGetArguments`: a fresh arguments object whose
        elements are, in order, the actual parameters of the frame. */
    method ArgumentsFromParameters(frame: Frame, fn: Ref) returns (r: Value)
      requires Valid()
      modifies this
      ensures Valid() && changeLog == old(changeLog)
      ensures r == Obj(old(next)) && next == old(next) + 1
      ensures objs == old(objs)[old(next) := ArgumentsObjectFor(realm, fn, frame.parameters)]
    {
      var length := |frame.parameters|;
      var elements := new Value[length];
      for i := 0 to length
        modifies elements
        invariant elements[..i] == frame.parameters[..i]
      {
        elements[i] := frame.parameters[i];
      }
      assert elements[..] == frame.parameters;
      r := NewArgumentsObject(fn, elements[..]);
    }

    /** The answer of `FunctionGetArguments` once it has found `fn` at
        position `i` of `frame`, allocating an arguments object when one is
        called for. */
    method AnswerInvocation(frame: Frame, fn: Ref, i: nat) returns (r: Value)
      requires Valid() && i < |frame.inlinedArguments|
      modifies this
      ensures Valid() && changeLog == old(changeLog)
      ensures var a := AtInvocation(frame, fn, i);
        && (a.Returns? ==> r == a.value && objs == old(objs) && next == old(next))
        && (a.Materialize? ==>
              r == Obj(old(next)) && next == old(next) + 1
              && objs == old(objs)[old(next) := ArgumentsObjectFor(realm, a.callee, a.elements)])
    {
      if i > 0 {
        // The function was inlined: rebuild its arguments from the
        // deoptimization data.
        r := ConstructArgumentsObjectForInlinedFunction(frame, fn, i);
        return;
      }
      if !frame.optimized && frame.argumentsLocal.Some? && frame.argumentsLocal.value.LocalValue? {
        return frame.argumentsLocal.value.value;
      }
      r := ArgumentsFromParameters(frame, fn);
    }

    /** `FunctionGetArguments`: walks the frames from the top and each frame's
        functions from the innermost, and answers as `ArgumentsOf` says,
        allocating the arguments object when one is called for. */
    method FunctionGetArguments(receiver: Value, frames: seq<Frame>) returns (r: Value)
      requires Valid() && WellFormed(frames)
      modifies this
      ensures Valid() && changeLog == old(changeLog)
      ensures var a := ArgumentsOf(old(objs), old(rank), realm, receiver, frames);
        && (a.Returns? ==> r == a.value && objs == old(objs) && next == old(next))
        && (a.Materialize? ==>
              r == Obj(old(next)) && next == old(next) + 1
              && objs == old(objs)[old(next) := ArgumentsObjectFor(realm, a.callee, a.elements)])
    {
      var holder := FindInstanceOf(objs, rank, realm, receiver, IsFunction);
      if holder.None? {
        return Undefined;
      }
      var fn := holder.value;
      if objs[fn].kind.shared.native {
        return Null;
      }
      var found := FindInvocationOnStack(frames, fn);
      if found.Some? {
        r := AnswerInvocation(frames[found.value.0], fn, found.value.1);
        return;
      }
      return Null;
    }
  }
}
