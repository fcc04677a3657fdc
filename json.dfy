/** JSON values as `JSON.parse` and the HTTP clients hand them to the app, with the
    handful of JavaScript operations the core applies to them: truthiness, `typeof`,
    property reads, `Object.values` and string conversion. */
module Json {
  import opened Wrappers

  /** A parsed JSON value. Numbers are integers in this model; an object keeps its own
      properties in enumeration order. */
  datatype Json =
    | Null
    | Bool(b: bool)
    | Num(n: int)
    | Str(s: string)
    | Arr(items: seq<Json>)
    | Obj(entries: seq<(string, Json)>)

  /** JavaScript truthiness: `null`, `false`, `0` and `''` are falsy, every array and object is truthy. */
  predicate Truthy(v: Json) {
    match v
    case Null => false
    case Bool(b) => b
    case Num(n) => n != 0
    case Str(s) => s != ""
    case Arr(_) => true
    case Obj(_) => true
  }

  /** `typeof v === 'object'`, which holds for `null` as well as arrays and objects. */
  predicate IsObjectType(v: Json) {
    v.Null? || v.Arr? || v.Obj?
  }

  /** The first entry named `key`, or `None` (`undefined`). */
  function Lookup(entries: seq<(string, Json)>, key: string): (r: Option<Json>)
    ensures r.Some? ==> exists i :: 0 <= i < |entries| && entries[i] == (key, r.value)
    ensures r.None? <==> forall i :: 0 <= i < |entries| ==> entries[i].0 != key
  {
    if entries == [] then None
    else if entries[0].0 == key then Some(entries[0].1)
    else
      var r := Lookup(entries[1..], key);
      assert forall i :: 1 <= i < |entries| ==> entries[i] == entries[1..][i - 1];
      r
  }

  /** The property read `v.key` on a value that is not `null` (reading a property of
      `null` throws, and every caller handles that case first). Only objects carry
      named properties here; on strings, numbers, booleans and arrays the read gives
      `undefined`. */
  function Get(v: Json, key: string): (r: Option<Json>)
    requires v != Null
    ensures r.Some? ==> v.Obj? && exists i :: 0 <= i < |v.entries| && v.entries[i] == (key, r.value)
    ensures v.Obj? && r.None? ==> forall i :: 0 <= i < |v.entries| ==> v.entries[i].0 != key
  {
    if v.Obj? then Lookup(v.entries, key) else None
  }

  /** `Object.values(v)` of an object, in enumeration order. */
  function Values(entries: seq<(string, Json)>): (r: seq<Json>)
    ensures |r| == |entries|
    ensures forall i :: 0 <= i < |entries| ==> r[i] == entries[i].1
  {
    seq(|entries|, i requires 0 <= i < |entries| => entries[i].1)
  }

  /** Decimal digits of a natural number. */
  function NatText(n: nat): (r: string)
    ensures |r| > 0
    ensures forall i :: 0 <= i < |r| ==> '0' <= r[i] <= '9'
    decreases n
  {
    var d := [('0' as int + n % 10) as char];
    if n < 10 then d else NatText(n / 10) + d
  }

  /** `String(n)` for an integer. */
  function IntText(n: int): string {
    if n < 0 then "-" + NatText(-n) else NatText(n)
  }

  /** `String(v)`, as a template literal or string concatenation converts a value. */
  function Text(v: Json): string
    decreases v, 1, 0
  {
    match v
    case Null => "null"
    case Bool(b) => if b then "true" else "false"
    case Num(n) => IntText(n)
    case Str(s) => s
    case Arr(_) => JoinFrom(v, 0)
    case Obj(_) => "[object Object]"
  }

  /** `items.slice(i).join(',')`, where `null` elements become the empty string. */
  function JoinFrom(v: Json, i: nat): string
    requires v.Arr? && i <= |v.items|
    decreases v, 0, |v.items| - i
  {
    if i == |v.items| then ""
    else
      var item := if v.items[i] == Null then "" else Text(v.items[i]);
      if i + 1 == |v.items| then item else item + "," + JoinFrom(v, i + 1)
  }

  /** `String(x)` for a property read that may be `undefined`. */
  function PropertyText(x: Option<Json>): string {
    if x.None? then "undefined" else Text(x.value)
  }
}
