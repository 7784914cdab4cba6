/**
 * The read side of the array-length accessor, the checks its setter makes
 * before resizing (src/accessors.cc:177-243), and the string-length getter
 * (src/accessors.cc:257-274).
 */
module LengthAccessors {
  import opened Values
  import opened Heap
  import opened Conversions

  /** `ArrayGetLength`: the length of the nearest array on the receiver's
      prototype chain, or 0 when there is none. */
  function ArrayGetLength(objs: Objects, ghost rank: map<Ref, nat>, realm: Realm, receiver: Value): Value
    requires Ranked(objs, rank)
  {
    match FindInstanceOf(objs, rank, realm, receiver, IsArray)
    case None => Smi(0)
    case Some(a) => Smi(objs[a].kind.length)
  }

  /** The getter reports the length of the first array on the chain, and 0
      when no object on the chain is an array. */
  lemma ArrayGetLengthIsNearestArray(objs: Objects, rank: map<Ref, nat>, realm: Realm, receiver: Value, k: nat)
    requires Ranked(objs, rank)
    ensures var c := Chain(objs, rank, ChainStart(realm, receiver));
      && ((forall i :: 0 <= i < |c| ==> !IsArray(objs[c[i]].kind)) ==> ArrayGetLength(objs, rank, realm, receiver) == Smi(0))
      && (k < |c| && IsArray(objs[c[k]].kind) && (forall i :: 0 <= i < k ==> !IsArray(objs[c[i]].kind)) ==>
            ArrayGetLength(objs, rank, realm, receiver) == Smi(objs[c[k]].kind.length))
  {
    var start := ChainStart(realm, receiver);
    var c := Chain(objs, rank, start);
    FindFromIsFirstMatch(objs, rank, start, IsArray);
    var found := FindFrom(objs, rank, start, IsArray);
    if k < |c| && IsArray(objs[c[k]].kind) && (forall i :: 0 <= i < k ==> !IsArray(objs[c[i]].kind)) {
      var j :| 0 <= j < |c| && c[j] == found.value && forall i :: 0 <= i < j ==> !IsArray(objs[c[i]].kind);
      assert !(j < k) && !(k < j);
    }
  }

  /** A JSValue whose map is the Number function's initial map: a plain
      `new Number(...)` wrapper. Only numbers are ever boxed with that map. */
  predicate IsNumberWrapper(objs: Objects, v: Value)
  {
    && v.Obj? && v.ref in objs && objs[v.ref].kind.ValueWrapper? && objs[v.ref].kind.numberMap
    && objs[v.ref].kind.primitive.Num?
  }

  /** `FlattenNumber`: a Number wrapper with the initial map is replaced by the
      number it wraps; every other value, including wrappers whose map was
      changed, is returned as it is. */
  function FlattenNumber(objs: Objects, value: Value): (r: Value)
    ensures !IsNumberWrapper(objs, value) ==> r == value
    ensures IsNumberWrapper(objs, value) ==> r.Num? && r == objs[value.ref].kind.primitive
  {
    if IsNumberWrapper(objs, value) then objs[value.ref].kind.primitive else value
  }

  /** Flattening twice is flattening once. */
  lemma FlattenNumberIdempotent(objs: Objects, value: Value)
    ensures FlattenNumber(objs, FlattenNumber(objs, value)) == FlattenNumber(objs, value)
  {
  }

  /** Flattening lets a Number wrapper's number through without consulting
      the wrapper's (possibly user-defined) `valueOf`. */
  lemma FlattenNumberBypassesValueOf(objs: Objects, value: Value, objectToNumber: Ref -> Result<Number>)
    requires IsNumberWrapper(objs, value)
    ensures ToNumber(FlattenNumber(objs, value), objectToNumber) == Ok(objs[value.ref].kind.primitive.n)
  {
  }

  /** The message template of the RangeError for a bad array length. */
  const InvalidArrayLength := "invalid_array_length"

  /** The length check `ArraySetLength` makes for an array receiver: flatten
      the value, take ToUint32 and ToNumber (either may throw), and accept the
      value only when the two compare equal; otherwise a RangeError. */
  function NewArrayLength(objs: Objects, value: Value, objectToNumber: Ref -> Result<Number>): Result<nat>
  {
    var v := FlattenNumber(objs, value);
    var u :- ToUint32(v, objectToNumber);
    var n :- ToNumber(v, objectToNumber);
    if NumericEquals(Finite(u as real), n) then Ok(u)
    else Err(RangeError(InvalidArrayLength, []))
  }

  /** The check of section 15.4.5.1 of ECMA-262 5th edition: a new length is
      accepted exactly when its number is an integer in [0, 2^32), and is then
      that integer; any other number is a RangeError; an exception from the
      conversion is passed on. */
  lemma NewArrayLengthAcceptsExactUint32(objs: Objects, value: Value, objectToNumber: Ref -> Result<Number>)
    ensures var n := ToNumber(FlattenNumber(objs, value), objectToNumber);
      var r := NewArrayLength(objs, value, objectToNumber);
      && (n.Err? ==> r == Err(n.error))
      && (n.Ok? && n.value.Finite? && IsUint32(n.value.r) ==> r == Ok(n.value.r.Floor))
      && (n.Ok? && !(n.value.Finite? && IsUint32(n.value.r)) ==> r == Err(RangeError(InvalidArrayLength, [])))
  {
    var n := ToNumber(FlattenNumber(objs, value), objectToNumber);
    if n.Ok? {
      ExactUint32(n.value);
    }
  }

  /** A string whose number is an integer below 2^32 sets the length to
      that integer. */
  lemma NewArrayLengthOfInteger(objs: Objects, s: string, k: nat, objectToNumber: Ref -> Result<Number>)
    requires k < TwoTo32 && StringToNumber(s) == Finite(k as real)
    ensures NewArrayLength(objs, Str(s), objectToNumber) == Ok(k)
  {
    assert FlattenNumber(objs, Str(s)) == Str(s);
    NewArrayLengthAcceptsExactUint32(objs, Str(s), objectToNumber);
    assert IsUint32(k as real) && (k as real).Floor == k;
  }

  /** A string of decimal digits below 2^32 (such as `a.length = "3"`) sets
      the length to the integer it spells. */
  lemma NewArrayLengthOfDigitString(objs: Objects, s: string, objectToNumber: Ref -> Result<Number>)
    requires s != [] && AllDecimalDigits(s) && DecimalValue(s) < TwoTo32
    ensures NewArrayLength(objs, Str(s), objectToNumber) == Ok(DecimalValue(s))
  {
    DigitStringToNumber(s);
    NewArrayLengthOfInteger(objs, s, DecimalValue(s), objectToNumber);
  }

  /** White space before the digits, such as the ideographic space U+3000,
      is skipped: `a.length = "\u30003"` sets the length to 3. */
  lemma NewArrayLengthSkipsWhiteSpace(objs: Objects, c: char, s: string, objectToNumber: Ref -> Result<Number>)
    requires IsStrWhiteSpace(c)
    requires s != [] && AllDecimalDigits(s) && DecimalValue(s) < TwoTo32
    ensures NewArrayLength(objs, Str([c] + s), objectToNumber) == Ok(DecimalValue(s))
  {
    LeadingWhiteSpaceIsIgnored(c, s);
    DigitStringToNumber(s);
    NewArrayLengthOfInteger(objs, [c] + s, DecimalValue(s), objectToNumber);
  }

  /** 3.5, -1 and 2^32 are not array lengths. */
  lemma NewArrayLengthRejects(objs: Objects, x: real, objectToNumber: Ref -> Result<Number>)
    requires x == 3.5 || x == -1.0 || x == TwoTo32 as real
    ensures NewArrayLength(objs, Num(Finite(x)), objectToNumber) == Err(RangeError(InvalidArrayLength, []))
  {
    NewArrayLengthAcceptsExactUint32(objs, Num(Finite(x)), objectToNumber);
    assert !IsUint32(x);
  }

  /** The value `StringLengthGetter` measures: a JSValue is unwrapped first
      (a script wrapper unwraps to a Script, which is not a string). */
  function StringLengthSubject(objs: Objects, receiver: Value): Option<Value>
  {
    if receiver.Obj? && receiver.ref in objs then
      match objs[receiver.ref].kind
      case ValueWrapper(p, _) => Some(p)
      case ScriptWrapper(_) => None
      case _ => Some(receiver)
    else Some(receiver)
  }

  /** A JSValue that wraps a string. */
  predicate IsStringWrapper(objs: Objects, v: Value)
  {
    v.Obj? && v.ref in objs && objs[v.ref].kind.ValueWrapper? && objs[v.ref].kind.primitive.Str?
  }

  /** A character outside the Basic Multilingual Plane, which UTF-16 writes
      as a surrogate pair. */
  predicate IsSupplementary(c: char)
  {
    c as int >= 0x1_0000
  }

  /** `String::length`: the number of UTF-16 code units of `s`. Each
      supplementary character counts twice, so the count equals the number
      of characters exactly when every character lies in the Basic
      Multilingual Plane. */
  function Utf16Length(s: string): (n: nat)
    ensures |s| <= n <= 2 * |s|
    ensures n == |s| <==> forall i :: 0 <= i < |s| ==> !IsSupplementary(s[i])
  {
    if s == [] then 0
    else
      assert forall i :: 0 < i < |s| ==> s[i] == s[1..][i - 1];
      (if IsSupplementary(s[0]) then 2 else 1) + Utf16Length(s[1..])
  }

  /** `StringLengthGetter`: the length in UTF-16 code units of a string or of
      the string inside a wrapper, and 0 for anything else (as WebKit does). */
  function StringLengthGetter(objs: Objects, receiver: Value): (r: Value)
    ensures receiver.Str? ==> r == Smi(Utf16Length(receiver.s))
    ensures IsStringWrapper(objs, receiver) ==> r == Smi(Utf16Length(objs[receiver.ref].kind.primitive.s))
    ensures r != Smi(0) ==> receiver.Str? || IsStringWrapper(objs, receiver)
  {
    match StringLengthSubject(objs, receiver)
    case Some(Str(s)) => Smi(Utf16Length(s))
    case _ => Smi(0)
  }

  /** A string of one character outside the Basic Multilingual Plane (an
      emoji, say) has length 2. */
  lemma SupplementaryCharacterCountsTwice(objs: Objects, c: char)
    requires IsSupplementary(c)
    ensures StringLengthGetter(objs, Str([c])) == Smi(2)
  {
    assert [c][1..] == [];
  }
}
