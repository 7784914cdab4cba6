/**
 * The values that the native accessors of the V8 runtime receive and return,
 * and the completion type they use to signal an exception.
 */
module Values {

  /** An address of an object in the heap. */
  type Ref = nat

  datatype Option<+T> = None | Some(value: T)

  /** An ECMAScript Number without the IEEE-754 details: a mathematical real
      or one of the three non-finite values (negative zero is not told apart). */
  datatype Number = Finite(r: real) | NaN | PosInf | NegInf

  /** A language value as an accessor sees it. */
  datatype Value =
    | Undefined
    | Null
    | Bool(b: bool)
    | Num(n: Number)
    | Str(s: string)
    | Obj(ref: Ref)

  /** A small integer, boxed as V8's `Smi::FromInt` does. */
  function Smi(n: int): Value
  {
    Num(Finite(n as real))
  }

  /** The exceptions the accessors raise, or pass on from code they call. */
  datatype Error =
    | RangeError(message: string, args: seq<Value>)
    | ReferenceError(message: string, args: seq<Value>)
    | Thrown(exception: Value)

  /** The outcome of an operation that can throw: V8's `MaybeObject*`, or a
      value plus the pending-exception slot. */
  datatype Result<+T> = Ok(value: T) | Err(error: Error) {
    predicate IsFailure() { Err? }

    function PropagateFailure<U>(): Result<U>
      requires Err?
    {
      Err(error)
    }

    function Extract(): T
      requires Ok?
    {
      value
    }
  }
}
