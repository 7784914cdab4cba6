/**
 * What `Function.prototype.arguments` yields (`Accessors::FunctionGetArguments`
 * and `ConstructArgumentsObjectForInlinedFunction`, src/accessors.cc:938-1029),
 * stated as a function of the heap and the stack. The method that allocates
 * the arguments object is `Runtime.Isolate.FunctionGetArguments`.
 */
module ArgumentsAccessor {
  import opened Values
  import opened Heap
  import opened Frames

  /** The outcome of the accessor: an existing value, or a fresh arguments
      object for `callee` holding `elements`, which the caller allocates. */
  datatype ArgumentsResult = Returns(value: Value) | Materialize(callee: Ref, elements: seq<Value>)

  /** The position of the last occurrence of `x` in `s`: the innermost
      activation within one frame. */
  function LastIndexOf(s: seq<Ref>, x: Ref): (k: nat)
    requires x in s
    ensures k < |s| && s[k] == x
    ensures forall i :: k < i < |s| ==> s[i] != x
  {
    if s[|s| - 1] == x then |s| - 1
    else
      assert x in s[..|s| - 1] by {
        var j :| 0 <= j < |s| && s[j] == x;
        assert s[..|s| - 1][j] == x;
      }
      LastIndexOf(s[..|s| - 1], x)
  }

  /** The search of `FunctionGetArguments` from frame `from` on: the first
      frame holding `f`, and in it the innermost position of `f`. */
  function FindInvocation(frames: seq<Frame>, from: nat, f: Ref): (r: Option<(nat, nat)>)
    requires from <= |frames|
    ensures r.None? <==> forall k :: from <= k < |frames| ==> f !in frames[k].functions
    ensures r.Some? ==>
      var (k, i) := r.value;
      && from <= k < |frames| && i < |frames[k].functions| && frames[k].functions[i] == f
      && (forall j :: from <= j < k ==> f !in frames[j].functions)
      && (forall j :: i < j < |frames[k].functions| ==> frames[k].functions[j] != f)
    decreases |frames| - from
  {
    if from == |frames| then None
    else if f in frames[from].functions then Some((from, LastIndexOf(frames[from].functions, f)))
    else FindInvocation(frames, from + 1, f)
  }

  /** The accessor: undefined without a function on the receiver's chain;
      null for a native function or one with no activation on the stack; for
      an inlined activation, a fresh object with the values the
      deoptimization data gives; for an unoptimized frame whose `arguments`
      slot holds an object, that object; otherwise a fresh object holding the
      actual parameters. */
  function ArgumentsOf(objs: Objects, ghost rank: map<Ref, nat>, realm: Realm, receiver: Value, frames: seq<Frame>): ArgumentsResult
    requires Ranked(objs, rank) && WellFormed(frames)
  {
    match FindInstanceOf(objs, rank, realm, receiver, IsFunction)
    case None => Returns(Undefined)
    case Some(f) =>
      if IsNative(objs, f) then Returns(Null)
      else match FindInvocation(frames, 0, f)
        case None => Returns(Null)
        case Some((k, i)) => AtInvocation(frames[k], f, i)
  }

  /** The answer once `f` is found at position `i` of `frame`: the values of
      an inlined activation; the frame's materialized `arguments` object when
      the frame is unoptimized and has one; otherwise the actual parameters. */
  function AtInvocation(frame: Frame, f: Ref, i: nat): ArgumentsResult
    requires i < |frame.inlinedArguments|
  {
    if i > 0 then Materialize(f, frame.inlinedArguments[i])
    else if !frame.optimized && frame.argumentsLocal.Some? && frame.argumentsLocal.value.LocalValue? then
      Returns(frame.argumentsLocal.value.value)
    else Materialize(f, frame.parameters)
  }

  /** The accessor hands out undefined when no function is found, and null
      for a native function or one with no activation on the stack. A fresh
      arguments object always belongs to that function, which is not native
      and is on the stack, and it holds either the values of an inlined
      activation or the actual parameters of a frame. Any other value handed
      out is a frame's own `arguments` object. */
  lemma ArgumentsOfOutcomes(objs: Objects, rank: map<Ref, nat>, realm: Realm, receiver: Value, frames: seq<Frame>)
    requires Ranked(objs, rank) && WellFormed(frames)
    ensures var r := ArgumentsOf(objs, rank, realm, receiver, frames);
      var h := FindInstanceOf(objs, rank, realm, receiver, IsFunction);
      && (h.None? ==> r == Returns(Undefined))
      && (h.Some? && IsNative(objs, h.value) ==> r == Returns(Null))
      && (h.Some? && h.value !in Flatten(frames) ==> r == Returns(Null))
      && (r.Returns? && h.Some? && !IsNative(objs, h.value) && h.value in Flatten(frames) ==>
            exists k :: 0 <= k < |frames| && h.value in frames[k].functions && !frames[k].optimized
              && frames[k].argumentsLocal == Some(LocalValue(r.value)))
      && (r.Materialize? ==>
            && h == Some(r.callee) && !IsNative(objs, r.callee) && r.callee in Flatten(frames)
            && exists k :: 0 <= k < |frames| && r.callee in frames[k].functions
                 && (r.elements == frames[k].parameters
                     || exists i :: 0 < i < |frames[k].functions| && r.elements == frames[k].inlinedArguments[i]))
  {
    var r := ArgumentsOf(objs, rank, realm, receiver, frames);
    var h := FindInstanceOf(objs, rank, realm, receiver, IsFunction);
    if h.Some? {
      InFlatten(frames, h.value);
    }
    if r.Returns? && h.Some? && !IsNative(objs, h.value) && h.value in Flatten(frames) {
      var (k, i) := FindInvocation(frames, 0, h.value).value;
      assert h.value in frames[k].functions;
    }
    if r.Materialize? {
      var (k, i) := FindInvocation(frames, 0, h.value).value;
      assert r.callee in frames[k].functions;
      if i > 0 {
        assert r.elements == frames[k].inlinedArguments[i];
      } else {
        assert r.elements == frames[k].parameters;
      }
    }
  }

  /** The activation that answers is the innermost one: when frame `k` is
      the first frame from the top holding `f`, and `i` the last position of
      `f` in it, an inlined activation (`i > 0`) gets its deoptimization
      values; otherwise an unoptimized frame's own `arguments` object is
      returned, and failing that the frame's actual parameters. */
  lemma ArgumentsAtInnermostActivation(objs: Objects, rank: map<Ref, nat>, realm: Realm, receiver: Value,
                                       frames: seq<Frame>, f: Ref, k: nat, i: nat)
    requires Ranked(objs, rank) && WellFormed(frames)
    requires FindInstanceOf(objs, rank, realm, receiver, IsFunction) == Some(f) && !IsNative(objs, f)
    requires k < |frames| && i < |frames[k].functions| && frames[k].functions[i] == f
    requires forall j :: 0 <= j < k ==> f !in frames[j].functions
    requires forall j :: i < j < |frames[k].functions| ==> frames[k].functions[j] != f
    ensures var r := ArgumentsOf(objs, rank, realm, receiver, frames);
      var frame := frames[k];
      && (i > 0 ==> r == Materialize(f, frame.inlinedArguments[i]))
      && (i == 0 && !frame.optimized && frame.argumentsLocal.Some? && frame.argumentsLocal.value.LocalValue? ==>
            r == Returns(frame.argumentsLocal.value.value))
      && (i == 0 && (frame.optimized || frame.argumentsLocal.None? || frame.argumentsLocal.value.ArgumentsMarker?) ==>
            r == Materialize(f, frame.parameters))
  {
    var found := FindInvocation(frames, 0, f);
    assert found.Some? by {
      assert f in frames[k].functions;
    }
    var (k', i') := found.value;
    assert f in frames[k'].functions && f in frames[k].functions;
    assert k' == k;
    assert frames[k].functions[i'] == f && frames[k].functions[i] == f;
  }

  /** Flattening distributes over concatenation of stacks. */
  lemma {:induction false} FlattenAppend(a: seq<Frame>, b: seq<Frame>)
    ensures Flatten(a + b) == Flatten(a) + Flatten(b)
  {
    if a == [] {
      assert a + b == b;
    } else {
      assert (a + b)[0] == a[0];
      assert (a + b)[1..] == a[1..] + b;
      FlattenAppend(a[1..], b);
    }
  }

  /** A function is on the flattened stack exactly when some frame holds it. */
  lemma {:induction false} InFlatten(frames: seq<Frame>, f: Ref)
    ensures f in Flatten(frames) <==> exists k :: 0 <= k < |frames| && f in frames[k].functions
  {
    if frames != [] {
      InFlatten(frames[1..], f);
      var fs := frames[0].functions;
      InReverse(fs, f);
      if f in Flatten(frames[1..]) {
        var k :| 0 <= k < |frames[1..]| && f in frames[1..][k].functions;
        assert f in frames[k + 1].functions;
      }
      if exists k :: 0 <= k < |frames| && f in frames[k].functions {
        var k :| 0 <= k < |frames| && f in frames[k].functions;
        if k > 0 {
          assert f in frames[1..][k - 1].functions;
        }
      }
    }
  }

  /** The flattened stack around frame `k`: the frames above it, its own
      functions innermost first, then the frames below it. */
  lemma FlattenAround(frames: seq<Frame>, k: nat)
    requires k < |frames|
    ensures Flatten(frames) == Flatten(frames[..k]) + (Reverse(frames[k].functions) + Flatten(frames[k + 1..]))
  {
    assert frames == frames[..k] + frames[k..];
    FlattenAppend(frames[..k], frames[k..]);
    FlattenFrom(frames, k);
  }

  /** The flattened stack from frame `k` on starts with that frame's functions. */
  lemma FlattenFrom(frames: seq<Frame>, k: nat)
    requires k < |frames|
    ensures Flatten(frames[k..]) == Reverse(frames[k].functions) + Flatten(frames[k + 1..])
  {
    assert frames[k..][0] == frames[k] && frames[k..][1..] == frames[k + 1..];
  }

  /** In the innermost-first order of one frame, the last position of `f`
      comes first. */
  lemma ReverseFirstOccurrence(fs: seq<Ref>, f: Ref, i: nat)
    requires i < |fs| && fs[i] == f
    requires forall j :: i < j < |fs| ==> fs[j] != f
    ensures Reverse(fs)[|fs| - 1 - i] == f
    ensures f !in Reverse(fs)[..|fs| - 1 - i]
  {
    var p := |fs| - 1 - i;
    ReverseIndex(fs);
    forall q | 0 <= q < p
      ensures Reverse(fs)[..p][q] != f
    {
      assert Reverse(fs)[q] == fs[|fs| - 1 - q];
    }
  }

  /** A function held by no frame above `k` is not among their functions. */
  lemma NotAbove(frames: seq<Frame>, k: nat, f: Ref)
    requires k <= |frames|
    requires forall j :: 0 <= j < k ==> f !in frames[j].functions
    ensures f !in Flatten(frames[..k])
  {
    InFlatten(frames[..k], f);
  }

  /** The first occurrence of `f` on the flattened stack, given the frame
      that first holds it and its last position there. */
  lemma FirstOccurrenceInFlatten(frames: seq<Frame>, k: nat, i: nat, f: Ref)
    requires k < |frames| && i < |frames[k].functions| && frames[k].functions[i] == f
    requires forall j :: 0 <= j < k ==> f !in frames[j].functions
    requires forall j :: i < j < |frames[k].functions| ==> frames[k].functions[j] != f
    ensures f in Flatten(frames)
    ensures IndexOf(Flatten(frames), f) == |Flatten(frames[..k])| + (|frames[k].functions| - 1 - i)
  {
    var fs := frames[k].functions;
    var before := Flatten(frames[..k]);
    var all := Flatten(frames);
    FlattenAround(frames, k);
    NotAbove(frames, k, f);
    ReverseFirstOccurrence(fs, f, i);
    var p := |fs| - 1 - i;
    var idx := |before| + p;
    assert all[idx] == f;
    assert all[..idx] == before + Reverse(fs)[..p];
    IndexOfIsFirst(all, f, idx);
  }

  /** `arguments` and `caller` look at the same activation: the search of
      `FunctionGetArguments` succeeds exactly when the function is on the
      innermost-first sequence that `FrameFunctionIterator` walks, and the
      frame and position it finds are where that sequence first shows it. */
  lemma SameActivationAsCaller(frames: seq<Frame>, f: Ref)
    ensures FindInvocation(frames, 0, f).Some? <==> f in Flatten(frames)
    ensures FindInvocation(frames, 0, f).Some? ==>
      var (k, i) := FindInvocation(frames, 0, f).value;
      IndexOf(Flatten(frames), f) == |Flatten(frames[..k])| + (|frames[k].functions| - 1 - i)
  {
    InFlatten(frames, f);
    var found := FindInvocation(frames, 0, f);
    if found.Some? {
      FirstOccurrenceInFlatten(frames, found.value.0, found.value.1, f);
    }
  }
}
