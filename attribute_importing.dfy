// CoreDataKit/Importing/NSAttributeDescription+Importing.swift: converting a
// found value into what an attribute of a given type stores.

module AttributeImporting {
  import opened Wrappers
  import opened Values
  import opened JsonDecode
  import opened Schema

  /** What a stored value of each attribute type looks like; the types that
    * importing cannot fill admit nothing. */
  predicate Stores(t: AttributeType, v: AnyObject)
  {
    match t
    case Integer16AttributeType => v.NSNumberInt?
    case Integer32AttributeType => v.NSNumberInt?
    case Integer64AttributeType => v.NSNumberInt?
    case DecimalAttributeType => v.NSNumberDouble?
    case DoubleAttributeType => v.NSNumberDouble?
    case FloatAttributeType => v.NSNumberDouble?
    case StringAttributeType => v.NSString?
    case BooleanAttributeType => v.NSNumberBool?
    case DateAttributeType => v.NSDate?
    case BinaryDataAttributeType => v.NSData?
    case UndefinedAttributeType => false
    case TransformableAttributeType => false
    case ObjectIDAttributeType => false
  }

  /** `transformValue`: the value decoded for the attribute's type, or nothing. */
  function TransformValue(t: AttributeType, value: AnyObject, dateFromString: DateParser): (r: Option<AnyObject>)
    ensures r.Some? ==> Stores(t, r.value)
    ensures t.Integer16AttributeType? || t.Integer32AttributeType? ==>
      (r.Some? <==> DecodeInt(value).Some?) && (r.Some? ==> r.value == NSNumberInt(DecodeInt(value).value))
    ensures t.Integer64AttributeType? ==>
      (r.Some? <==> DecodeInt64(value).Some?) && (r.Some? ==> r.value == NSNumberInt(DecodeInt64(value).value))
    ensures t.DecimalAttributeType? || t.DoubleAttributeType? || t.FloatAttributeType? ==>
      (r.Some? <==> DecodeDouble(value).Some?) && (r.Some? ==> r.value == NSNumberDouble(DecodeDouble(value).value))
    ensures t.StringAttributeType? ==>
      (r.Some? <==> DecodeString(value).Some?) && (r.Some? ==> r.value == NSString(DecodeString(value).value))
    ensures t.BooleanAttributeType? ==>
      (r.Some? <==> DecodeBool(value).Some?) && (r.Some? ==> r.value == NSNumberBool(DecodeBool(value).value))
    ensures t.DateAttributeType? ==>
      (r.Some? <==> DecodeDate(value, dateFromString).Some?) &&
      (r.Some? ==> r.value == NSDate(DecodeDate(value, dateFromString).value))
    ensures t.BinaryDataAttributeType? ==>
      (r.Some? <==> DecodeData(value).Some?) && (r.Some? ==> r.value == NSData(DecodeData(value).value))
    ensures t.UndefinedAttributeType? || t.TransformableAttributeType? || t.ObjectIDAttributeType? ==> r.None?
  {
    match t
    case Integer16AttributeType => Wrap(DecodeInt(value), i => NSNumberInt(i))
    case Integer32AttributeType => Wrap(DecodeInt(value), i => NSNumberInt(i))
    case Integer64AttributeType => Wrap(DecodeInt64(value), i => NSNumberInt(i))
    case DecimalAttributeType => Wrap(DecodeDouble(value), d => NSNumberDouble(d))
    case DoubleAttributeType => Wrap(DecodeDouble(value), d => NSNumberDouble(d))
    case FloatAttributeType => Wrap(DecodeDouble(value), d => NSNumberDouble(d))
    case StringAttributeType => Wrap(DecodeString(value), s => NSString(s))
    case BooleanAttributeType => Wrap(DecodeBool(value), b => NSNumberBool(b))
    case DateAttributeType => Wrap(DecodeDate(value, dateFromString), t => NSDate(t))
    case BinaryDataAttributeType => Wrap(DecodeData(value), bytes => NSData(bytes))
    case UndefinedAttributeType => None
    case TransformableAttributeType => None
    case ObjectIDAttributeType => None
  }

  /** A decoded Swift value bridged back to an object. */
  function Wrap<T>(decoded: Option<T>, bridge: T -> AnyObject): (r: Option<AnyObject>)
    ensures r.Some? <==> decoded.Some?
    ensures r.Some? ==> r.value == bridge(decoded.value)
  {
    match decoded
    case Some(x) => Some(bridge(x))
    case None => None
  }

  /** An already stored value is accepted unchanged by its own attribute type
    * (dates may depend on the formatter only for strings, which are not dates). */
  lemma TransformKeepsStoredValues(t: AttributeType, v: AnyObject, dateFromString: DateParser)
    requires Stores(t, v)
    ensures TransformValue(t, v, dateFromString) == Some(v)
  {
  }

  /** Integer16 and Integer32 transform alike, as do Decimal, Double and Float. */
  lemma TransformSharedCases(v: AnyObject, dateFromString: DateParser)
    ensures TransformValue(Integer16AttributeType, v, dateFromString) == TransformValue(Integer32AttributeType, v, dateFromString)
    ensures TransformValue(DecimalAttributeType, v, dateFromString) == TransformValue(DoubleAttributeType, v, dateFromString)
    ensures TransformValue(FloatAttributeType, v, dateFromString) == TransformValue(DoubleAttributeType, v, dateFromString)
  {
  }
}
