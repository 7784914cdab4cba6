/**
 * The field-offset table that the optimizing compiler consults to read a
 * built-in property as a plain field load instead of calling its accessor
 * (`Accessors::IsJSObjectFieldAccessor`, src/accessors.cc:103-157).
 */
module FieldAccessors {
  import opened Values

  /** The instance types the table distinguishes; every other one is Other. */
  datatype InstanceType = JSArrayType | JSTypedArrayType | JSArrayBufferType | JSDataViewType | OtherInstanceType

  /** A static type as the compiler sees it: whether it is a subtype of String
      (`type->Is(T::String())`), and the instance type of its map when it is a
      class type (`type->IsClass()`). */
  datatype StaticType = StaticType(isString: bool, asClass: Option<InstanceType>)

  /** The field offsets, by the names V8 gives them (their numeric values live
      in objects.h, which is not part of this model). */
  datatype FieldOffset =
    | StringLengthOffset
    | JSArrayLengthOffset
    | JSTypedArrayLengthOffset
    | JSTypedArrayByteLengthOffset
    | JSTypedArrayByteOffsetOffset
    | JSArrayBufferByteLengthOffset
    | JSDataViewByteLengthOffset
    | JSDataViewByteOffsetOffset

  const LengthString := "length"
  const ByteLengthString := "byteLength"
  const ByteOffsetString := "byteOffset"

  /** `CheckForName`: on a name match, writes `offset` into the out-parameter
      and reports true; otherwise leaves the out-parameter as it was. */
  function CheckForName(name: string, propertyName: string, offset: FieldOffset, objectOffset: FieldOffset): (r: (bool, FieldOffset))
    ensures r.0 <==> name == propertyName
    ensures r.1 == if name == propertyName then offset else objectOffset
  {
    if name == propertyName then (true, offset) else (false, objectOffset)
  }

  /** `IsJSObjectFieldAccessor`: whether `name` on values of type `t` is a
      direct field read, and the out-parameter `*object_offset` afterwards. */
  function IsJSObjectFieldAccessor(t: StaticType, name: string, objectOffset: FieldOffset): (bool, FieldOffset)
  {
    if t.isString then CheckForName(name, LengthString, StringLengthOffset, objectOffset)
    else if t.asClass.None? then (false, objectOffset)
    else match t.asClass.value
      case JSArrayType =>
        CheckForName(name, LengthString, JSArrayLengthOffset, objectOffset)
      case JSTypedArrayType =>
        var a := CheckForName(name, LengthString, JSTypedArrayLengthOffset, objectOffset);
        if a.0 then a
        else
          var b := CheckForName(name, ByteLengthString, JSTypedArrayByteLengthOffset, objectOffset);
          if b.0 then b
          else CheckForName(name, ByteOffsetString, JSTypedArrayByteOffsetOffset, objectOffset)
      case JSArrayBufferType =>
        CheckForName(name, ByteLengthString, JSArrayBufferByteLengthOffset, objectOffset)
      case JSDataViewType =>
        var a := CheckForName(name, ByteLengthString, JSDataViewByteLengthOffset, objectOffset);
        if a.0 then a
        else CheckForName(name, ByteOffsetString, JSDataViewByteOffsetOffset, objectOffset)
      case OtherInstanceType => (false, objectOffset)
  }

  /** Who holds a field: strings, or instances of a class. */
  datatype Holder = StringHolder | ClassHolder(instanceType: InstanceType)

  /** The holder the table looks under for a static type: String wins over the
      class check, and a type that is neither has none. */
  function HolderOf(t: StaticType): Option<Holder>
  {
    if t.isString then Some(StringHolder)
    else if t.asClass.Some? then Some(ClassHolder(t.asClass.value))
    else None
  }

  /** The allow-list, written out as a table. */
  const FieldTable: map<(Holder, string), FieldOffset> := map[
    (StringHolder, LengthString) := StringLengthOffset,
    (ClassHolder(JSArrayType), LengthString) := JSArrayLengthOffset,
    (ClassHolder(JSTypedArrayType), LengthString) := JSTypedArrayLengthOffset,
    (ClassHolder(JSTypedArrayType), ByteLengthString) := JSTypedArrayByteLengthOffset,
    (ClassHolder(JSTypedArrayType), ByteOffsetString) := JSTypedArrayByteOffsetOffset,
    (ClassHolder(JSArrayBufferType), ByteLengthString) := JSArrayBufferByteLengthOffset,
    (ClassHolder(JSDataViewType), ByteLengthString) := JSDataViewByteLengthOffset,
    (ClassHolder(JSDataViewType), ByteOffsetString) := JSDataViewByteOffsetOffset
  ]

  /** The function answers true exactly for the pairs in the table, writes the
      table's offset when it does, and leaves the out-parameter untouched when
      it does not. */
  lemma IsJSObjectFieldAccessorMatchesTable(t: StaticType, name: string, objectOffset: FieldOffset)
    ensures var r := IsJSObjectFieldAccessor(t, name, objectOffset);
      && (r.0 <==> HolderOf(t).Some? && (HolderOf(t).value, name) in FieldTable)
      && (r.0 ==> r.1 == FieldTable[(HolderOf(t).value, name)])
      && (!r.0 ==> r.1 == objectOffset)
  {
    assert LengthString != ByteLengthString && LengthString != ByteOffsetString;
    assert ByteLengthString != ByteOffsetString by {
      assert ByteLengthString[4] != ByteOffsetString[4];
    }
  }
}
