// The Foundation values an import dictionary is made of, and key-value coding
// lookups by dot-separated key path on a dictionary.

module Values {
  import opened Wrappers
  import opened Strings

  const MinInt64: int := -0x8000_0000_0000_0000
  const MaxInt64: int := 0x7FFF_FFFF_FFFF_FFFF

  /** A signed 64-bit machine integer (Swift's `Int` and `Int64` on 64-bit platforms). */
  type Int64 = x: int | MinInt64 <= x <= MaxInt64

  /** An object that can appear in a decoded JSON dictionary. NSNumber is split
    * by what it was made from; an NSDate is counted in whole seconds. */
  datatype AnyObject =
    | NSNull
    | NSString(stringValue: string)
    | NSNumberBool(boolValue: bool)
    | NSNumberInt(intValue: Int64)
    | NSNumberDouble(doubleValue: real)
    | NSDate(timeIntervalSinceReferenceDate: int)
    | NSData(bytes: seq<bv8>)
    | NSArray(elements: seq<AnyObject>)
    | NSDictionary(entries: map<string, AnyObject>)

  /** `[String: AnyObject]` */
  type Dict = map<string, AnyObject>

  /** How deeply dictionaries are nested inside `v`; only used to bound the
    * recursion of the import engine, which descends into nested dictionaries. */
  ghost function Depth(v: AnyObject): nat
    decreases v, 1, 0
  {
    match v
    case NSDictionary(m) => 1 + DepthOver(m, m.Keys)
    case _ => 0
  }

  ghost function DepthOver(m: Dict, keys: set<string>): nat
    requires keys <= m.Keys
    decreases NSDictionary(m), 0, |keys|
  {
    if keys == {} then 0
    else
      var k :| k in keys;
      var here := Depth(m[k]);
      var others := DepthOver(m, keys - {k});
      if here < others then others else here
  }

  /** The nesting depth of the values of a dictionary. */
  ghost function DictDepth(m: Dict): nat
  {
    DepthOver(m, m.Keys)
  }

  lemma {:induction false} DepthOverBound(m: Dict, keys: set<string>, k: string)
    requires keys <= m.Keys && k in keys
    ensures Depth(m[k]) <= DepthOver(m, keys)
    decreases |keys|
  {
    var k0 :| k0 in keys && DepthOver(m, keys) ==
      (var here := Depth(m[k0]); var others := DepthOver(m, keys - {k0});
       if here < others then others else here);
    if k0 != k {
      DepthOverBound(m, keys - {k0}, k);
    }
  }

  /** No entry of a dictionary is nested deeper than the dictionary's values. */
  lemma EntryDepth(m: Dict, k: string)
    requires k in m
    ensures Depth(m[k]) <= DictDepth(m)
  {
    DepthOverBound(m, m.Keys, k);
  }

  /** `valueForKey` on an NSDictionary: the entry, if the key is present. */
  function ValueForKey(d: Dict, key: string): (r: Option<AnyObject>)
    ensures r.Some? <==> key in d
    ensures r.Some? ==> r.value == d[key]
  {
    if key in d then Some(d[key]) else None
  }

  /** Follows `keys` through nested dictionaries. A missing key, or an
    * intermediate value that is not a dictionary, gives no value. */
  function ValueAtPath(d: Dict, keys: seq<string>): (r: Option<AnyObject>)
    requires |keys| >= 1
    ensures r.Some? ==> Depth(r.value) <= DictDepth(d)
    decreases |keys|
  {
    if keys[0] !in d then None
    else
      EntryDepth(d, keys[0]);
      if |keys| == 1 then Some(d[keys[0]])
      else match d[keys[0]]
        case NSDictionary(inner) => ValueAtPath(inner, keys[1..])
        case _ => None
  }

  /** `valueForKeyPath` on an NSDictionary: the path is split at every '.'. */
  function ValueForKeyPath(d: Dict, keyPath: string): (r: Option<AnyObject>)
    ensures r.Some? ==> Depth(r.value) <= DictDepth(d)
  {
    ValueAtPath(d, Split(keyPath, '.'))
  }

  /** A path without a dot is a plain key lookup. */
  lemma KeyPathWithoutDot(d: Dict, key: string)
    requires '.' !in key
    ensures ValueForKeyPath(d, key) == ValueForKey(d, key)
  {
    SplitWithoutSeparator(key, '.');
  }

  lemma {:induction false} SplitAtFirstDot(key: string, rest: string)
    requires '.' !in key
    ensures Split(key + "." + rest, '.') == [key] + Split(rest, '.')
    decreases |key|
  {
    if |key| > 0 {
      assert '.' !in key[1..] by {
        forall i | 0 <= i < |key[1..]| ensures key[1..][i] != '.' {
          assert key[1..][i] == key[i + 1];
        }
      }
      SplitAtFirstDot(key[1..], rest);
      assert (key + "." + rest)[1..] == key[1..] + "." + rest;
      assert [key[0]] + key[1..] == key;
    } else {
      assert key + "." + rest == "." + rest;
      assert ("." + rest)[1..] == rest;
    }
  }

  /** `a.b` looks `b` up inside the dictionary found under `a`, and finds
    * nothing when that value is missing or is not a dictionary. */
  lemma KeyPathComposes(d: Dict, key: string, rest: string)
    requires '.' !in key
    ensures ValueForKeyPath(d, key + "." + rest) ==
      (if key in d && d[key].NSDictionary? then ValueForKeyPath(d[key].entries, rest) else None)
  {
    SplitAtFirstDot(key, rest);
    var keys := Split(key + "." + rest, '.');
    assert keys[0] == key && keys[1..] == Split(rest, '.');
  }
}
