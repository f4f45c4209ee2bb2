// CoreDataKit/Importing/JsonDecode+Importing.swift: decoding a JSON value into
// the Swift type an attribute needs. Each decoder is a type test; only the
// Int64 decoder converts (any NSNumber to its 64-bit value).

module JsonDecode {
  import opened Wrappers
  import opened Values

  /** `NSDateFormatter.dateFromString` for a given date format: the seconds it
    * parses the text to, or nothing. Parsing itself is not modelled. */
  type DateParser = (string, string) -> Option<int>

  /** The format of the shared formatter `NSDate.DateFormatter.withTimeZone`. */
  const DateFormatWithTimeZone: string := "yyyy-MM-dd'T'HH:mm:ssZZZZZ"

  /** `String.decode` */
  function DecodeString(json: AnyObject): (r: Option<string>)
    ensures r.Some? <==> json.NSString?
    ensures r.Some? ==> r.value == json.stringValue
  {
    match json
    case NSString(s) => Some(s)
    case _ => None
  }

  /** `Bool.decode` */
  function DecodeBool(json: AnyObject): (r: Option<bool>)
    ensures r.Some? <==> json.NSNumberBool?
    ensures r.Some? ==> r.value == json.boolValue
  {
    match json
    case NSNumberBool(b) => Some(b)
    case _ => None
  }

  /** `Int.decode` */
  function DecodeInt(json: AnyObject): (r: Option<Int64>)
    ensures r.Some? <==> json.NSNumberInt?
    ensures r.Some? ==> r.value == json.intValue
  {
    match json
    case NSNumberInt(i) => Some(i)
    case _ => None
  }

  /** `Double.decode` */
  function DecodeDouble(json: AnyObject): (r: Option<real>)
    ensures r.Some? <==> json.NSNumberDouble?
    ensures r.Some? ==> r.value == json.doubleValue
  {
    match json
    case NSNumberDouble(d) => Some(d)
    case _ => None
  }

  /** `NSData.decode` */
  function DecodeData(json: AnyObject): (r: Option<seq<bv8>>)
    ensures r.Some? <==> json.NSData?
    ensures r.Some? ==> r.value == json.bytes
  {
    match json
    case NSData(bytes) => Some(bytes)
    case _ => None
  }

  /** A real truncated toward zero, as a C conversion to `long long` does. */
  function TruncateTowardZero(d: real): (r: int)
    ensures d >= 0.0 ==> r as real <= d < r as real + 1.0
    ensures d < 0.0 ==> r as real - 1.0 < d <= r as real
  {
    if d >= 0.0 then d.Floor else -((-d).Floor)
  }

  /** `NSNumber.longLongValue`: a boolean is 0 or 1, an integer is itself, a
    * double is truncated toward zero and clamped to the 64-bit range. */
  function LongLongValue(json: AnyObject): (r: Int64)
    requires json.NSNumberBool? || json.NSNumberInt? || json.NSNumberDouble?
    ensures json.NSNumberInt? ==> r == json.intValue
    ensures json.NSNumberBool? ==> r == (if json.boolValue then 1 else 0)
    ensures json.NSNumberDouble? && MinInt64 <= TruncateTowardZero(json.doubleValue) <= MaxInt64 ==>
      r == TruncateTowardZero(json.doubleValue)
  {
    match json
    case NSNumberBool(b) => if b then 1 else 0
    case NSNumberInt(i) => i
    case NSNumberDouble(d) =>
      var t := TruncateTowardZero(d);
      if t < MinInt64 then MinInt64 else if t > MaxInt64 then MaxInt64 else t
  }

  /** `Int64.decode`: any number gives its 64-bit value; anything else nothing. */
  function DecodeInt64(json: AnyObject): (r: Option<Int64>)
    ensures r.Some? <==> json.NSNumberBool? || json.NSNumberInt? || json.NSNumberDouble?
    ensures r.Some? ==> r.value == LongLongValue(json)
  {
    match json
    case NSNumberBool(_) => Some(LongLongValue(json))
    case NSNumberInt(_) => Some(LongLongValue(json))
    case NSNumberDouble(_) => Some(LongLongValue(json))
    case _ => None
  }

  /** `NSDate.decode`: a date passes through, a string goes to the shared
    * formatter, anything else gives nothing. */
  function DecodeDate(json: AnyObject, dateFromString: DateParser): (r: Option<int>)
    ensures json.NSDate? ==> r == Some(json.timeIntervalSinceReferenceDate)
    ensures json.NSString? ==> r == dateFromString(DateFormatWithTimeZone, json.stringValue)
    ensures !json.NSDate? && !json.NSString? ==> r.None?
  {
    match json
    case NSDate(t) => Some(t)
    case NSString(s) => dateFromString(DateFormatWithTimeZone, s)
    case _ => None
  }

  /** A 64-bit value always survives `Int64.decode` of the NSNumber made from it. */
  lemma Int64NumberRoundTrip(i: Int64)
    ensures DecodeInt64(NSNumberInt(i)) == Some(i)
  {
  }

  /** Truncation keeps integral doubles exact, so in-range whole doubles decode to themselves. */
  lemma {:induction false} Int64OfWholeDouble(i: Int64)
    ensures DecodeInt64(NSNumberDouble(i as real)) == Some(i)
  {
    var n: int := i;
    if n >= 0 {
      assert (n as real).Floor == n;
    } else {
      assert (-(n as real)).Floor == -n;
    }
  }
}
