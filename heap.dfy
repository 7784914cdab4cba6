/**
 * The part of the V8 heap that the accessors look at: objects with a
 * prototype link and a kind, function and script metadata, and the
 * prototype-chain scan `FindInstanceOf` (src/accessors.cc:66-72).
 */
module Heap {
  import opened Values

  /** `Script::COMPILATION_TYPE_HOST` and `Script::COMPILATION_TYPE_EVAL`. */
  datatype CompilationType = Host | Eval

  /** The script record behind a script wrapper object. */
  datatype Script = Script(
    id: Value,
    name: Value,
    source: Value,
    lineOffset: Value,
    columnOffset: Value,
    scriptType: Value,
    compilationType: CompilationType,
    contextData: Value,
    evalFromShared: Option<SharedInfo>,   // undefined unless the script came from `eval`
    evalFromInstructionsOffset: int)

  /** The parts of a SharedFunctionInfo that the accessors read. */
  datatype SharedInfo = SharedInfo(
    name: Value,
    inferredName: Value,
    compiled: bool,
    length: nat,                      // the formal parameter count, valid once compiled
    native: bool,
    toplevel: bool,
    bound: bool,
    strict: bool,
    script: Option<Script>)

  /** What an object is, as far as `Is<C>` and the accessors can tell. */
  datatype Kind =
    | PlainObject
    | ArrayObject(length: nat, elements: map<nat, Value>)
    | FunctionObject(
        shared: SharedInfo,
        shouldHavePrototype: bool,
        prototype: Option<Value>,     // None while `has_prototype()` is false
        builtin: bool)                // `IsBuiltin()`: the function lives in the builtins context
    | ValueWrapper(primitive: Value, numberMap: bool)   // a JSValue; numberMap: its map is the Number function's initial map
    | ScriptWrapper(script: Script)                     // a JSValue that boxes a Script
    | ArgumentsObject(callee: Ref, arguments: seq<Value>)

  datatype HeapObject = HeapObject(
    proto: Option<Ref>,               // None stands for a null prototype
    kind: Kind,
    properties: map<string, Value>,   // own plain data properties
    observed: bool)                   // `map()->is_observed()`

  type Objects = map<Ref, HeapObject>

  /** The prototypes that the native context gives to primitive values, and
      the initial object prototype used for new objects. */
  datatype Realm = Realm(
    objectPrototype: Option<Ref>,
    numberPrototype: Option<Ref>,
    stringPrototype: Option<Ref>,
    booleanPrototype: Option<Ref>)

  /** Every prototype link goes to an object of smaller rank, so prototype
      chains are finite and acyclic. */
  ghost predicate Ranked(objs: Objects, rank: map<Ref, nat>)
  {
    forall r :: r in objs ==>
      && r in rank
      && (objs[r].proto.Some? && objs[r].proto.value in objs ==>
            objs[r].proto.value in rank && rank[objs[r].proto.value] < rank[r])
  }

  ghost function Measure(objs: Objects, rank: map<Ref, nat>, cur: Option<Ref>): nat
    requires Ranked(objs, rank)
  {
    if cur.Some? && cur.value in objs then rank[cur.value] + 1 else 0
  }

  /** Where the loop of `FindInstanceOf` goes after looking at `v` itself: an
      object's chain starts at the object; a number, string or boolean is not
      an instance of any kind and its chain continues at the prototype the
      realm gives its type; undefined and null end the walk. */
  function ChainStart(realm: Realm, v: Value): Option<Ref>
  {
    match v
    case Obj(r) => Some(r)
    case Num(_) => realm.numberPrototype
    case Str(_) => realm.stringPrototype
    case Bool(_) => realm.booleanPrototype
    case _ => None
  }

  /** The objects on the prototype chain from `cur`, nearest first. */
  ghost function Chain(objs: Objects, rank: map<Ref, nat>, cur: Option<Ref>): (c: seq<Ref>)
    requires Ranked(objs, rank)
    ensures forall i :: 0 <= i < |c| ==> c[i] in objs
    decreases Measure(objs, rank, cur)
  {
    if cur.None? || cur.value !in objs then []
    else [cur.value] + Chain(objs, rank, objs[cur.value].proto)
  }

  /** The loop of `FindInstanceOf` from `cur` on. */
  function FindFrom(objs: Objects, ghost rank: map<Ref, nat>, cur: Option<Ref>, pred: Kind -> bool): (r: Option<Ref>)
    requires Ranked(objs, rank)
    ensures r.Some? ==> r.value in objs && pred(objs[r.value].kind)
    decreases Measure(objs, rank, cur)
  {
    if cur.None? || cur.value !in objs then None
    else if pred(objs[cur.value].kind) then cur
    else FindFrom(objs, rank, objs[cur.value].proto, pred)
  }

  /** `FindInstanceOf<C>(obj)`: the nearest object on the prototype chain of
      `v` whose kind satisfies `pred`, or None (NULL). */
  function FindInstanceOf(objs: Objects, ghost rank: map<Ref, nat>, realm: Realm, v: Value, pred: Kind -> bool): (r: Option<Ref>)
    requires Ranked(objs, rank)
    ensures r.Some? ==> r.value in objs && pred(objs[r.value].kind)
  {
    FindFrom(objs, rank, ChainStart(realm, v), pred)
  }

  /** The scan comes back empty exactly when no object on the chain
      satisfies the predicate. */
  lemma {:induction false} FindFromNoneIff(objs: Objects, rank: map<Ref, nat>, cur: Option<Ref>, pred: Kind -> bool)
    requires Ranked(objs, rank)
    ensures var c := Chain(objs, rank, cur);
      FindFrom(objs, rank, cur, pred).None? <==> forall i :: 0 <= i < |c| ==> !pred(objs[c[i]].kind)
    decreases Measure(objs, rank, cur)
  {
    if cur.Some? && cur.value in objs {
      var next := objs[cur.value].proto;
      var c := Chain(objs, rank, cur);
      var tail := Chain(objs, rank, next);
      assert c[0] == cur.value;
      if !pred(objs[cur.value].kind) {
        FindFromNoneIff(objs, rank, next, pred);
        if forall i :: 0 <= i < |tail| ==> !pred(objs[tail[i]].kind) {
          forall i | 0 <= i < |c|
            ensures !pred(objs[c[i]].kind)
          {
            if i > 0 {
              assert c[i] == tail[i - 1];
            }
          }
        } else {
          var j :| 0 <= j < |tail| && pred(objs[tail[j]].kind);
          assert c[j + 1] == tail[j];
        }
      }
    }
  }

  /** `c[k]` satisfies the predicate and nothing before it on `c` does. */
  ghost predicate FirstMatchAt(objs: Objects, c: seq<Ref>, k: nat, pred: Kind -> bool)
    requires forall i :: 0 <= i < |c| ==> c[i] in objs
  {
    k < |c| && pred(objs[c[k]].kind) && forall i :: 0 <= i < k ==> !pred(objs[c[i]].kind)
  }

  /** A match is preceded on the chain only by objects that do not satisfy
      the predicate: it sits at position `k` of the chain. */
  lemma {:induction false} FindFromSomeIsFirst(objs: Objects, rank: map<Ref, nat>, cur: Option<Ref>, pred: Kind -> bool)
    returns (k: nat)
    requires Ranked(objs, rank)
    requires FindFrom(objs, rank, cur, pred).Some?
    ensures FirstMatchAt(objs, Chain(objs, rank, cur), k, pred)
    ensures Chain(objs, rank, cur)[k] == FindFrom(objs, rank, cur, pred).value
    decreases Measure(objs, rank, cur)
  {
    var c := Chain(objs, rank, cur);
    assert c[0] == cur.value;
    if !pred(objs[cur.value].kind) {
      var next := objs[cur.value].proto;
      var tail := Chain(objs, rank, next);
      assert c == [cur.value] + tail;
      var j := FindFromSomeIsFirst(objs, rank, next, pred);
      forall i | 0 <= i < j + 1
        ensures !pred(objs[c[i]].kind)
      {
        if i > 0 {
          assert c[i] == tail[i - 1];
        }
      }
      k := j + 1;
    } else {
      k := 0;
    }
  }

  /** The scan returns the first object on the chain that satisfies the
      predicate, and None exactly when no object on the chain does. */
  lemma FindFromIsFirstMatch(objs: Objects, rank: map<Ref, nat>, cur: Option<Ref>, pred: Kind -> bool)
    requires Ranked(objs, rank)
    ensures var c := Chain(objs, rank, cur);
      && (FindFrom(objs, rank, cur, pred).None? <==> forall i :: 0 <= i < |c| ==> !pred(objs[c[i]].kind))
      && (FindFrom(objs, rank, cur, pred).Some? ==>
            exists k :: 0 <= k < |c| && c[k] == FindFrom(objs, rank, cur, pred).value
                        && forall i :: 0 <= i < k ==> !pred(objs[c[i]].kind))
  {
    FindFromNoneIff(objs, rank, cur, pred);
    if FindFrom(objs, rank, cur, pred).Some? {
      var k := FindFromSomeIsFirst(objs, rank, cur, pred);
      assert FirstMatchAt(objs, Chain(objs, rank, cur), k, pred);
    }
  }

  /** Scanning for a stronger predicate `q` can start with the nearest object
      satisfying a weaker one `p`: it is the answer if it satisfies `q`, and
      otherwise the scan goes on from its prototype. */
  lemma {:induction false} FindFromRefines(objs: Objects, rank: map<Ref, nat>, cur: Option<Ref>, p: Kind -> bool, q: Kind -> bool)
    requires Ranked(objs, rank)
    requires forall k :: q(k) ==> p(k)
    requires FindFrom(objs, rank, cur, p).Some?
    ensures var f := FindFrom(objs, rank, cur, p).value;
      FindFrom(objs, rank, cur, q) ==
        if q(objs[f].kind) then Some(f) else FindFrom(objs, rank, objs[f].proto, q)
    decreases Measure(objs, rank, cur)
  {
    if !p(objs[cur.value].kind) {
      FindFromRefines(objs, rank, objs[cur.value].proto, p, q);
    }
  }

  /** A match for a stronger predicate is also a match for a weaker one, so
      the scan for the weaker one cannot come back empty. */
  lemma {:induction false} FindFromWeaker(objs: Objects, rank: map<Ref, nat>, cur: Option<Ref>, p: Kind -> bool, q: Kind -> bool)
    requires Ranked(objs, rank)
    requires forall k :: q(k) ==> p(k)
    requires FindFrom(objs, rank, cur, q).Some?
    ensures FindFrom(objs, rank, cur, p).Some?
    decreases Measure(objs, rank, cur)
  {
    if !p(objs[cur.value].kind) {
      FindFromWeaker(objs, rank, objs[cur.value].proto, p, q);
    }
  }

  /** The scan never moves to an object of higher rank than where it started. */
  lemma {:induction false} FindFromDescends(objs: Objects, rank: map<Ref, nat>, cur: Option<Ref>, pred: Kind -> bool)
    requires Ranked(objs, rank)
    ensures FindFrom(objs, rank, cur, pred).Some? ==>
              Measure(objs, rank, FindFrom(objs, rank, cur, pred)) <= Measure(objs, rank, cur)
    decreases Measure(objs, rank, cur)
  {
    if cur.Some? && cur.value in objs && !pred(objs[cur.value].kind) {
      FindFromDescends(objs, rank, objs[cur.value].proto, pred);
    }
  }

  /** Every prototype link leads to a live object. */
  predicate Closed(objs: Objects)
  {
    forall r :: r in objs && objs[r].proto.Some? ==> objs[r].proto.value in objs
  }

  /** A heap that keeps every object's prototype link and what the predicate
      says of it (new objects may appear) gives the same scan result. */
  lemma {:induction false} FindFromUnchanged(objs: Objects, rank: map<Ref, nat>, objs': Objects, rank': map<Ref, nat>,
                                             cur: Option<Ref>, pred: Kind -> bool)
    requires Ranked(objs, rank) && Ranked(objs', rank') && Closed(objs)
    requires cur.Some? ==> cur.value in objs
    requires forall r :: r in objs ==> r in objs' && objs'[r].proto == objs[r].proto && pred(objs'[r].kind) == pred(objs[r].kind)
    ensures FindFrom(objs', rank', cur, pred) == FindFrom(objs, rank, cur, pred)
    decreases Measure(objs, rank, cur)
  {
    if cur.Some? && !pred(objs[cur.value].kind) {
      FindFromUnchanged(objs, rank, objs', rank', objs[cur.value].proto, pred);
    }
  }

  // Kind predicates for `Is<C>`.

  predicate IsArray(k: Kind) { k.ArrayObject? }

  predicate IsFunction(k: Kind) { k.FunctionObject? }

  /** A function whose kind has a `prototype` slot (`should_have_prototype()`). */
  predicate IsPrototypeFunction(k: Kind) { k.FunctionObject? && k.shouldHavePrototype }

  // Flags of a function object named by reference, as read through
  // `function->shared()`; false for anything that is not a function.

  predicate IsFunctionRef(objs: Objects, f: Ref)
  {
    f in objs && objs[f].kind.FunctionObject?
  }

  predicate IsNative(objs: Objects, f: Ref) { IsFunctionRef(objs, f) && objs[f].kind.shared.native }

  predicate IsToplevel(objs: Objects, f: Ref) { IsFunctionRef(objs, f) && objs[f].kind.shared.toplevel }

  predicate IsBound(objs: Objects, f: Ref) { IsFunctionRef(objs, f) && objs[f].kind.shared.bound }

  predicate IsStrict(objs: Objects, f: Ref) { IsFunctionRef(objs, f) && objs[f].kind.shared.strict }

  predicate IsBuiltin(objs: Objects, f: Ref) { IsFunctionRef(objs, f) && objs[f].kind.builtin }
}
