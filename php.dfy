/** PHP values as the plugin receives them (json_decode(..., true), the
    option store, post and term meta) and the parts of PHP's semantics the
    code depends on: isset, ??, empty(), truthiness, is_array, foreach,
    string conversion and intval. Library routines whose behaviour lies
    outside the plugin are fields of `Lib` and stay uninterpreted. */
module Php {
  import opened Wrappers
  import opened Strings

  /** A PHP value. An array that is a list (keys 0..n-1) is a List; any
      other array is an Obj, an association list in PHP's insertion order.
      Floats are kept as their exact value and only compared, never
      computed with. */
  datatype Value =
    | Null
    | Bool(b: bool)
    | Int(i: int)
    | Float(r: real)
    | Str(s: string)
    | List(items: seq<Value>)
    | Obj(entries: seq<(string, Value)>)

  /** array(), the empty array literal. */
  const EmptyArray := List([])

  /** Routines the plugin calls but does not define, left uninterpreted. */
  datatype Lib = Lib(
    stripTags: string -> string,         // wp_strip_all_tags
    sanitizeText: string -> string,      // sanitize_text_field
    sanitizeTextarea: string -> string,  // sanitize_textarea_field
    ksesPost: string -> string,          // wp_kses_post
    urlencode: string -> string,         // urlencode
    stringToInt: string -> int,          // intval of a string
    floatval: Value -> real,             // floatval
    floatToString: real -> string,       // string conversion of a float
    numericString: string -> Option<real>, // is_numeric of a string, and its value
    encrypt: string -> string,           // AES-256-CBC + base64 of encrypt_api_key
    decrypt: string -> string            // base64 + AES-256-CBC of decrypt_api_key
  )

  /** $a[$key] when $a is an array with that string key. */
  function Get(v: Value, key: string): (r: Option<Value>)
    ensures r.Some? ==> v.Obj?
  {
    if v.Obj? then FindEntry(v.entries, key) else None
  }

  function FindEntry(entries: seq<(string, Value)>, key: string): Option<Value>
    decreases |entries|
  {
    if |entries| == 0 then None
    else if entries[0].0 == key then Some(entries[0].1)
    else FindEntry(entries[1..], key)
  }

  /** $m[$key] of a flat key/value array (the settings option). */
  function Field(m: map<string, Value>, key: string): (r: Option<Value>)
    ensures r.Some? <==> key in m
    ensures r.Some? ==> r.value == m[key]
  {
    if key in m then Some(m[key]) else None
  }

  /** $a[$i] for an integer index: a list position, or the key "i" of an
      associative array (PHP turns numeric string keys into ints). */
  function Index(v: Value, i: nat): Option<Value> {
    match v
    case List(items) => if i < |items| then Some(items[i]) else None
    case Obj(_) => Get(v, NatToDecimal(i))
    case _ => None
  }

  /** $a[$k1][$k2]... along a path of string keys. */
  function GetPath(v: Value, path: seq<string>): Option<Value>
    decreases |path|
  {
    if |path| == 0 then Some(v)
    else match Get(v, path[0])
      case None => None
      case Some(w) => GetPath(w, path[1..])
  }

  /** The keys of an array, in order. */
  function Keys(v: Value): seq<string>
    requires v.Obj?
  {
    seq(|v.entries|, i requires 0 <= i < |v.entries| => v.entries[i].0)
  }

  /** isset(...) of an element that may be missing. */
  predicate IsSet(o: Option<Value>) {
    o.Some? && o.value != Null
  }

  /** $x ?? $default */
  function Coalesce(o: Option<Value>, default: Value): (r: Value)
    ensures IsSet(o) ==> r == o.value
    ensures !IsSet(o) ==> r == default
  {
    if IsSet(o) then o.value else default
  }

  /** empty() of a present value: null, false, 0, 0.0, '', '0' and the empty array. */
  predicate EmptyValue(v: Value) {
    match v
    case Null => true
    case Bool(b) => !b
    case Int(i) => i == 0
    case Float(r) => r == 0.0
    case Str(s) => s == "" || s == "0"
    case List(items) => |items| == 0
    case Obj(entries) => |entries| == 0
  }

  /** empty() of an element that may be missing. */
  predicate Empty(o: Option<Value>) {
    o.None? || EmptyValue(o.value)
  }

  /** empty() of a string. */
  predicate EmptyString(s: string) {
    s == "" || s == "0"
  }

  predicate IsArray(v: Value) {
    v.List? || v.Obj?
  }

  /** The values foreach visits: the elements of an array in order; a
      scalar gives no iterations. */
  function Elements(v: Value): (r: seq<Value>)
    ensures IsArray(v) ==> |r| == if v.List? then |v.items| else |v.entries|
    ensures !IsArray(v) ==> r == []
  {
    match v
    case List(items) => items
    case Obj(entries) => seq(|entries|, i requires 0 <= i < |entries| => entries[i].1)
    case _ => []
  }

  /** PHP's conversion of a value to string (string interpolation, '.',
      a `string` parameter). An array converts to "Array". */
  function Text(lib: Lib, v: Value): string {
    match v
    case Null => ""
    case Bool(b) => if b then "1" else ""
    case Int(i) => IntToDecimal(i)
    case Float(r) => lib.floatToString(r)
    case Str(s) => s
    case List(_) => "Array"
    case Obj(_) => "Array"
  }

  /** intval($v), and the coercion of a value to an `int` parameter. */
  function IntVal(lib: Lib, v: Value): int {
    match v
    case Null => 0
    case Bool(b) => if b then 1 else 0
    case Int(i) => i
    case Float(r) => if r >= 0.0 then r.Floor else -((-r).Floor)
    case Str(s) => lib.stringToInt(s)
    case List(items) => if |items| == 0 then 0 else 1
    case Obj(entries) => if |entries| == 0 then 0 else 1
  }

  /** is_numeric($v) and the number it compares as. */
  function Numeric(lib: Lib, v: Value): Option<real> {
    match v
    case Int(i) => Some(i as real)
    case Float(r) => Some(r)
    case Str(s) => lib.numericString(s)
    case _ => None
  }

  /** The string value of a present string element, for strpos tests: a
      scalar that is not a string never contains '***' or starts with 'sk-'. */
  predicate StrContains(v: Value, sub: string) {
    v.Str? && Contains(v.s, sub)
  }

  predicate StrStartsWith(v: Value, prefix: string) {
    v.Str? && StartsWith(v.s, prefix)
  }
}
