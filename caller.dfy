/**
 * `Function.prototype.caller` (`Accessors::FunctionGetCaller`,
 * src/accessors.cc:1090-1139): the decision, stated on the innermost-first
 * sequence of functions on the stack, and the method that reaches it by
 * driving a `FrameFunctionIterator`.
 */
module CallerAccessor {
  import opened Values
  import opened Heap
  import opened Frames

  /** The first position at or after `j` that is not a top-level function
      (script or eval code), or |s|. */
  function FirstNonToplevel(objs: Objects, s: seq<Ref>, j: nat): (k: nat)
    requires j <= |s|
    ensures j <= k <= |s|
    decreases |s| - j
  {
    if j == |s| || !IsToplevel(objs, s[j]) then j else FirstNonToplevel(objs, s, j + 1)
  }

  /** Every function `FirstNonToplevel` skips is top-level code, and the one
      it stops at is not. */
  lemma {:induction false} FirstNonToplevelIsFirst(objs: Objects, s: seq<Ref>, j: nat)
    requires j <= |s|
    ensures var k := FirstNonToplevel(objs, s, j);
      && (forall i :: j <= i < k ==> IsToplevel(objs, s[i]))
      && (k < |s| ==> !IsToplevel(objs, s[k]))
    decreases |s| - j
  {
    if j < |s| && IsToplevel(objs, s[j]) {
      FirstNonToplevelIsFirst(objs, s, j + 1);
    }
  }

  /** The first position at or after `j` that is not a builtin, or |s|. */
  function EndOfBuiltinRun(objs: Objects, s: seq<Ref>, j: nat): (k: nat)
    requires j <= |s|
    ensures j <= k <= |s|
    decreases |s| - j
  {
    if j == |s| || !IsBuiltin(objs, s[j]) then j else EndOfBuiltinRun(objs, s, j + 1)
  }

  /** Every function in the run `EndOfBuiltinRun` passes over is a builtin,
      and the one it stops at is not. */
  lemma {:induction false} EndOfBuiltinRunIsEnd(objs: Objects, s: seq<Ref>, j: nat)
    requires j <= |s|
    ensures var k := EndOfBuiltinRun(objs, s, j);
      && (forall i :: j <= i < k ==> IsBuiltin(objs, s[i]))
      && (k < |s| ==> !IsBuiltin(objs, s[k]))
    decreases |s| - j
  {
    if j < |s| && IsBuiltin(objs, s[j]) {
      EndOfBuiltinRunIsEnd(objs, s, j + 1);
    }
  }

  /** The caller chosen from the functions of `s` from `start` on, those
      that follow the target on the stack: skip top-level code; if that
      reaches a builtin, move to the last builtin of the run and then, unless
      it is native, to the function after the run; report null for a bound or
      strict result. */
  function CallerAfter(objs: Objects, s: seq<Ref>, start: nat): (r: Value)
    requires start <= |s|
    ensures r == Null || (r.Obj? && r.ref in s[start..] && !IsBound(objs, r.ref) && !IsStrict(objs, r.ref))
  {
    var j := FirstNonToplevel(objs, s, start);
    if j == |s| then Null
    else
      var e := EndOfBuiltinRun(objs, s, j);
      var caller := if e == j then j else e - 1;
      var chosen := if !IsNative(objs, s[caller]) && e < |s| then e else caller;
      assert s[start..][chosen - start] == s[chosen];
      if IsBound(objs, s[chosen]) || IsStrict(objs, s[chosen]) then Null else Obj(s[chosen])
  }

  /** The whole accessor: undefined without a function on the receiver's
      chain; null for a native function, for a function not on the stack and
      whenever `CallerAfter` censors; otherwise a function that ran below the
      target's first (innermost) activation. */
  function SelectCaller(objs: Objects, ghost rank: map<Ref, nat>, realm: Realm, receiver: Value, frames: seq<Frame>): Value
    requires Ranked(objs, rank)
  {
    match FindInstanceOf(objs, rank, realm, receiver, IsFunction)
    case None => Undefined
    case Some(f) =>
      if IsNative(objs, f) then Null
      else
        var s := Flatten(frames);
        if f !in s then Null else CallerAfter(objs, s, IndexOf(s, f) + 1)
  }

  /** What `caller` reveals is never a bound or strict function, and always a
      function found further out on the stack than the innermost activation
      of the function asked about. Section 15.3.5.4 of ECMA-262 5th edition
      throws a TypeError for a strict caller; this accessor reports null. */
  lemma CallerIsSloppyAndOuter(objs: Objects, rank: map<Ref, nat>, realm: Realm, receiver: Value, frames: seq<Frame>)
    requires Ranked(objs, rank)
    ensures var r := SelectCaller(objs, rank, realm, receiver, frames);
      var h := FindInstanceOf(objs, rank, realm, receiver, IsFunction);
      var s := Flatten(frames);
      && (r == Undefined <==> h.None?)
      && (r.Obj? ==> h.Some? && !IsNative(objs, h.value) && h.value in s
                     && r.ref in s[IndexOf(s, h.value) + 1..]
                     && !IsBound(objs, r.ref) && !IsStrict(objs, r.ref))
  {
  }

  /** When nothing but top-level code follows the target, there is no caller. */
  lemma ToplevelOnlyMeansNoCaller(objs: Objects, rest: seq<Ref>)
    requires forall i :: 0 <= i < |rest| ==> IsToplevel(objs, rest[i])
    ensures CallerAfter(objs, rest, 0) == Null
  {
    FirstNonToplevelIsFirst(objs, rest, 0);
  }

  /** A plain sloppy-mode function right after the target is its caller. */
  lemma DirectCaller(objs: Objects, rest: seq<Ref>)
    requires rest != []
    requires !IsToplevel(objs, rest[0]) && !IsBuiltin(objs, rest[0])
    requires !IsBound(objs, rest[0]) && !IsStrict(objs, rest[0])
    ensures CallerAfter(objs, rest, 0) == Obj(rest[0])
  {
    assert FirstNonToplevel(objs, rest, 0) == 0;
    assert EndOfBuiltinRun(objs, rest, 0) == 0;
  }

  /** A call that went through a run of non-native builtins is attributed to
      the function that called into the run. */
  lemma BuiltinRunIsSkipped(objs: Objects, rest: seq<Ref>, n: nat)
    requires 0 < n < |rest|
    requires forall i :: 0 <= i < n ==> IsBuiltin(objs, rest[i]) && !IsNative(objs, rest[i])
    requires !IsToplevel(objs, rest[0])
    requires !IsBuiltin(objs, rest[n]) && !IsBound(objs, rest[n]) && !IsStrict(objs, rest[n])
    ensures CallerAfter(objs, rest, 0) == Obj(rest[n])
  {
    assert FirstNonToplevel(objs, rest, 0) == 0;
    EndOfBuiltinRunIsEnd(objs, rest, 0);
    assert EndOfBuiltinRun(objs, rest, 0) == n;
  }

  /** The first loop of `FunctionGetCaller`: take functions from the
      iterator until one is not top-level code. */
  method NextNonToplevel(objs: Objects, it: FrameFunctionIterator) returns (caller: Option<Ref>)
    requires it.Valid()
    modifies it
    ensures it.Valid()
    ensures var j := FirstNonToplevel(objs, it.all, old(it.taken));
      && (j == |it.all| ==> caller.None?)
      && (j < |it.all| ==> caller == Some(it.all[j]) && it.taken == j + 1)
  {
    ghost var start := it.taken;
    caller := it.Next();
    ghost var pos := if caller.Some? then start else |it.all|;
    while caller.Some? && IsToplevel(objs, caller.value)
      invariant it.Valid() && start <= pos <= |it.all|
      invariant caller.Some? ==> pos < |it.all| && caller.value == it.all[pos] && it.taken == pos + 1
      invariant caller.None? ==> pos == |it.all|
      invariant FirstNonToplevel(objs, it.all, pos) == FirstNonToplevel(objs, it.all, start)
      decreases |it.all| - pos
    {
      caller := it.Next();
      pos := pos + 1;
    }
  }

  /** The second loop of `FunctionGetCaller`: while the candidate is a
      builtin, make it the caller and take the next function. */
  method CollapseBuiltins(objs: Objects, it: FrameFunctionIterator, first: Ref, ghost j: nat)
    returns (current: Ref, potential: Option<Ref>)
    requires it.Valid() && j < |it.all| && first == it.all[j] && it.taken == j + 1
    modifies it
    ensures var e := EndOfBuiltinRun(objs, it.all, j);
      && current == (if e == j then it.all[j] else it.all[e - 1])
      && potential == (if e < |it.all| then Some(it.all[e]) else None)
  {
    current := first;
    potential := Some(first);
    ghost var e := j;
    while potential.Some? && IsBuiltin(objs, potential.value)
      invariant it.Valid() && j <= e <= |it.all|
      invariant potential.Some? ==> e < |it.all| && potential.value == it.all[e] && it.taken == e + 1
      invariant potential.None? ==> e == |it.all|
      invariant EndOfBuiltinRun(objs, it.all, e) == EndOfBuiltinRun(objs, it.all, j)
      invariant current == if e == j then it.all[j] else it.all[e - 1]
      decreases |it.all| - e
    {
      current := potential.value;
      potential := it.Next();
      e := e + 1;
    }
  }

  /** The part of `FunctionGetCaller` after the target has been found: the
      caller among the functions the iterator has left. */
  method CallerFromIterator(objs: Objects, it: FrameFunctionIterator) returns (r: Value)
    requires it.Valid()
    modifies it
    ensures r == CallerAfter(objs, it.all, old(it.taken))
  {
    var caller := NextNonToplevel(objs, it);
    if caller.None? {
      return Null;
    }
    ghost var j := FirstNonToplevel(objs, it.all, old(it.taken));
    var current, potential := CollapseBuiltins(objs, it, caller.value, j);
    if !IsNative(objs, current) && potential.Some? {
      current := potential.value;
    }
    if IsBound(objs, current) {
      return Null;
    }
    if IsStrict(objs, current) {
      return Null;
    }
    return Obj(current);
  }

  /** `FunctionGetCaller`: finds the target with the iterator, skips top-level
      code, collapses a run of builtins and censors the result. It allocates
      nothing but its iterator and changes no frame. */
  method FunctionGetCaller(objs: Objects, ghost rank: map<Ref, nat>, realm: Realm, receiver: Value, frames: seq<Frame>)
    returns (r: Value)
    requires Ranked(objs, rank) && WellFormed(frames)
    ensures r == SelectCaller(objs, rank, realm, receiver, frames)
  {
    var holder := FindInstanceOf(objs, rank, realm, receiver, IsFunction);
    if holder.None? {
      return Undefined;
    }
    var target := holder.value;
    if IsNative(objs, target) {
      return Null;
    }
    var found, it := IteratorPast(frames, target);
    if !found {
      return Null;
    }
    r := CallerFromIterator(objs, it);
  }

  /** A fresh iterator over the stack, advanced past the innermost
      activation of `target` when there is one. */
  method IteratorPast(frames: seq<Frame>, target: Ref) returns (found: bool, it: FrameFunctionIterator)
    requires WellFormed(frames)
    ensures fresh(it) && it.Valid() && it.all == Flatten(frames)
    ensures found <==> target in Flatten(frames)
    ensures found ==> it.taken == IndexOf(Flatten(frames), target) + 1
  {
    it := new FrameFunctionIterator(frames);
    assert it.Remaining() == Flatten(frames);
    found := it.Find(target);
  }
}
