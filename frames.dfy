/**
 * The JavaScript stack as the `arguments` and `caller` accessors see it, and
 * `FrameFunctionIterator` (src/accessors.cc:1044-1087), which walks the
 * functions of all frames from the innermost outwards.
 */
module Frames {
  import opened Values

  /** The value of a frame's `arguments` stack slot: the marker that says no
      arguments object was materialized, or a value. */
  datatype Local = ArgumentsMarker | LocalValue(value: Value)

  /** A JavaScript frame. An optimized frame may stand for several functions,
      the outermost at index 0 and each inlinee after the function it was
      inlined into (`GetFunctions`). */
  datatype Frame = Frame(
    functions: seq<Ref>,
    optimized: bool,
    argumentsLocal: Option<Local>,       // None: the scope info has no stack slot for `arguments`
    parameters: seq<Value>,              // the actual parameters in the frame that holds them
    inlinedArguments: seq<seq<Value>>)   // per function index: the argument values the deoptimization data gives

  /** Every frame stands for at least one function, and has deoptimization
      values for each of them. */
  predicate WellFormed(frames: seq<Frame>)
  {
    forall k :: 0 <= k < |frames| ==>
      |frames[k].functions| > 0 && |frames[k].inlinedArguments| == |frames[k].functions|
  }

  /** The position of the first occurrence of `x` in `s`. */
  function IndexOf(s: seq<Ref>, x: Ref): (k: nat)
    requires x in s
    ensures k < |s| && s[k] == x && x !in s[..k]
  {
    if s[0] == x then 0
    else
      assert s[1..][..IndexOf(s[1..], x)] == s[1..1 + IndexOf(s[1..], x)];
      1 + IndexOf(s[1..], x)
  }

  /** An occurrence with none before it is the first. */
  lemma IndexOfIsFirst(s: seq<Ref>, x: Ref, k: nat)
    requires k < |s| && s[k] == x && x !in s[..k]
    ensures x in s && IndexOf(s, x) == k
  {
  }

  function Reverse(s: seq<Ref>): (r: seq<Ref>)
    ensures |r| == |s|
  {
    if s == [] then [] else [s[|s| - 1]] + Reverse(s[..|s| - 1])
  }

  /** Position `i` of the reversal holds position `|s| - 1 - i` of `s`. */
  lemma {:induction false} ReverseIndex(s: seq<Ref>)
    ensures forall i :: 0 <= i < |s| ==> Reverse(s)[i] == s[|s| - 1 - i]
  {
    if s != [] {
      ReverseIndex(s[..|s| - 1]);
    }
  }

  /** Reversal keeps the elements. */
  lemma InReverse(s: seq<Ref>, x: Ref)
    ensures x in Reverse(s) <==> x in s
  {
    ReverseIndex(s);
    if x in s {
      var i :| 0 <= i < |s| && s[i] == x;
      assert Reverse(s)[|s| - 1 - i] == x;
    }
    if x in Reverse(s) {
      var j :| 0 <= j < |s| && Reverse(s)[j] == x;
      assert s[|s| - 1 - j] == x;
    }
  }

  /** Handing out position `index` of a frame's functions leaves the ones
      before it, innermost first. */
  lemma ReverseStep(fs: seq<Ref>, index: nat)
    requires index < |fs|
    ensures Reverse(fs[..index + 1]) == [fs[index]] + Reverse(fs[..index])
  {
    assert fs[..index + 1][..index] == fs[..index];
  }

  /** All functions on the stack, innermost first: the frames from the top,
      and within a frame its inlinees before the functions they were inlined
      into. */
  function Flatten(frames: seq<Frame>): seq<Ref>
  {
    if frames == [] then [] else Reverse(frames[0].functions) + Flatten(frames[1..])
  }

  /** The state of a `FrameFunctionIterator`: past the frames it has
      loaded, with `index` on one of the current frame's functions, or with
      no functions left only when every frame has been loaded. */
  ghost predicate IteratorOk(frames: seq<Frame>, frameIndex: nat, functions: seq<Ref>, index: int)
  {
    && WellFormed(frames)
    && frameIndex <= |frames|
    && (functions != [] ==> 0 <= index < |functions|)
    && (functions == [] ==> frameIndex == |frames|)
  }

  /** The functions an iterator in that state has still to hand out, one
      step at a time: the function at `index`, then those below it in the
      current frame, then, once the frame is used up, those of the next. */
  ghost function Pending(frames: seq<Frame>, frameIndex: nat, functions: seq<Ref>, index: int): seq<Ref>
    requires IteratorOk(frames, frameIndex, functions, index)
    decreases |frames| - frameIndex, index
  {
    if functions == [] then []
    else if index > 0 then [functions[index]] + Pending(frames, frameIndex, functions, index - 1)
    else if frameIndex == |frames| then [functions[0]]
    else [functions[0]] + Pending(frames, frameIndex + 1, frames[frameIndex].functions, |frames[frameIndex].functions| - 1)
  }

  /** What is pending is the rest of the current frame's functions, innermost
      first, followed by the functions of the frames not yet loaded. */
  lemma {:induction false} PendingIsRestOfStack(frames: seq<Frame>, frameIndex: nat, functions: seq<Ref>, index: int)
    requires IteratorOk(frames, frameIndex, functions, index)
    ensures Pending(frames, frameIndex, functions, index) ==
      if functions == [] then [] else Reverse(functions[..index + 1]) + Flatten(frames[frameIndex..])
    decreases |frames| - frameIndex, index
  {
    if functions == [] {
    } else if index > 0 {
      PendingIsRestOfStack(frames, frameIndex, functions, index - 1);
      ReverseStep(functions, index);
    } else {
      assert Reverse(functions[..1]) == [functions[0]] by {
        assert functions[..1][..0] == [];
      }
      if frameIndex < |frames| {
        var next := frames[frameIndex].functions;
        PendingIsRestOfStack(frames, frameIndex + 1, next, |next| - 1);
        assert next[..|next|] == next;
        assert frames[frameIndex..][1..] == frames[frameIndex + 1..];
      }
    }
  }

  /** `FrameFunctionIterator`: hands out the functions of `Flatten(frames)`
      one at a time, loading the next frame's functions when those of the
      current frame are used up. The ghost `taken` counts the functions
      handed out so far. */
  class FrameFunctionIterator {
    const frames: seq<Frame>
    var frameIndex: nat       // the frame the underlying frame iterator is at
    var functions: seq<Ref>   // the functions of the frame being handed out
    var index: int            // the next one to hand out, counting down
    ghost const all: seq<Ref>
    ghost var taken: nat

    ghost predicate Valid()
      reads this
    {
      && IteratorOk(frames, frameIndex, functions, index)
      && taken <= |all|
      && Pending(frames, frameIndex, functions, index) == all[taken..]
    }

    /** The functions still to come, in the order `Next` hands them out. */
    ghost function Remaining(): seq<Ref>
      reads this
      requires Valid()
    {
      all[taken..]
    }

    constructor (frames: seq<Frame>)
      requires WellFormed(frames)
      ensures Valid()
      ensures this.frames == frames && all == Flatten(frames) && taken == 0
    {
      this.frames := frames;
      all := Flatten(frames);
      taken := 0;
      frameIndex := 0;
      functions := [];
      index := 0;
      new;
      GetFunctions();
    }

    /** `GetFunctions`: load the functions of the next frame, or nothing when
        the frames are exhausted. */
    method GetFunctions()
      requires WellFormed(frames) && frameIndex <= |frames| && taken <= |all|
      requires Flatten(frames[frameIndex..]) == all[taken..]
      modifies this
      ensures Valid() && taken == old(taken)
    {
      functions := [];
      if frameIndex == |frames| {
        return;
      }
      ghost var loaded := frames[frameIndex..];
      assert Flatten(loaded) == Reverse(loaded[0].functions) + Flatten(loaded[1..]);
      assert loaded[1..] == frames[frameIndex + 1..];
      functions := frames[frameIndex].functions;
      frameIndex := frameIndex + 1;
      index := |functions| - 1;
      PendingIsRestOfStack(frames, frameIndex, functions, index);
      assert functions[..index + 1] == functions;
    }

    /** `next`: the next function, or None (NULL) when there is none left. */
    method Next() returns (f: Option<Ref>)
      requires Valid()
      modifies this
      ensures Valid()
      ensures old(taken) == |all| ==> f.None? && taken == old(taken)
      ensures old(taken) < |all| ==> f == Some(all[old(taken)]) && taken == old(taken) + 1
    {
      if functions == [] {
        return None;
      }
      assert all[taken + 1..] == all[taken..][1..];
      if index == 0 {
        PendingIsRestOfStack(frames, frameIndex, functions, index);
        assert Reverse(functions[..1]) == [functions[0]] by {
          assert functions[..1][..0] == [];
        }
      }
      f := Some(functions[index]);
      index := index - 1;
      taken := taken + 1;
      if index < 0 {
        GetFunctions();
      }
    }

    /** `Find`: advance past the first occurrence of `target`, reporting
        whether there was one; when there was not, nothing is left. */
    method Find(target: Ref) returns (found: bool)
      requires Valid()
      modifies this
      ensures Valid()
      ensures found <==> target in old(Remaining())
      ensures found ==> taken == old(taken) + IndexOf(old(Remaining()), target) + 1
      ensures !found ==> taken == |all|
    {
      ghost var start := taken;
      ghost var rest := all[start..];
      while true
        invariant Valid() && start <= taken
        invariant target !in rest[..taken - start]
        decreases |all| - taken
      {
        var nextFunction := Next();
        if nextFunction.None? {
          assert rest[..taken - start] == rest;
          return false;
        }
        assert rest[taken - 1 - start] == all[taken - 1];
        if nextFunction.value == target {
          IndexOfIsFirst(rest, target, taken - 1 - start);
          return true;
        }
        assert rest[..taken - start] == rest[..taken - 1 - start] + [all[taken - 1]];
      }
    }
  }
}
