/**
 * Dynamically typed JavaScript values as the blog code meets them in error objects,
 * API responses and upload results, with the operators the code applies to them:
 * truthiness (`!!x`, `||`), nullishness (`??`), optional property access (`x?.k`)
 * and `String(x)` / `Array.prototype.join`.
 */
module JsValues {
  import opened Wrappers
  import opened JsStrings

  /** Numbers are integers here; objects are plain records without prototypes. */
  datatype Val =
    | Undef
    | Null
    | Bool(b: bool)
    | Num(n: int)
    | Str(s: string)
    | Arr(items: seq<Val>)
    | Obj(fields: map<string, Val>)

  predicate Truthy(v: Val) {
    match v
    case Undef => false
    case Null => false
    case Bool(b) => b
    case Num(n) => n != 0
    case Str(s) => s != ""
    case Arr(_) => true
    case Obj(_) => true
  }

  predicate Nullish(v: Val) {
    v.Undef? || v.Null?
  }

  /** `v?.k`: the property of an object, `undefined` for anything else or a missing key. */
  function Get(v: Val, k: string): (r: Val)
    ensures !v.Obj? ==> r == Undef
    ensures v.Obj? && k !in v.fields ==> r == Undef
  {
    if v.Obj? && k in v.fields then v.fields[k] else Undef
  }

  /** `a || b`. */
  function Or(a: Val, b: Val): (r: Val)
    ensures Truthy(a) ==> r == a
    ensures !Truthy(a) ==> r == b
  {
    if Truthy(a) then a else b
  }

  /** `a ?? b`. */
  function Coalesce(a: Val, b: Val): (r: Val)
    ensures !Nullish(a) ==> r == a
    ensures Nullish(a) ==> r == b
  {
    if Nullish(a) then b else a
  }

  /** `String(v)`. */
  function ToStr(v: Val): string
    decreases v, 1
  {
    match v
    case Undef => "undefined"
    case Null => "null"
    case Bool(b) => if b then "true" else "false"
    case Num(n) => IntToString(n)
    case Str(s) => s
    case Arr(items) => JoinVals(items, ",")
    case Obj(_) => "[object Object]"
  }

  /** `items.join(sep)`: `null` and `undefined` elements contribute the empty string. */
  function JoinVals(items: seq<Val>, sep: string): string
    decreases items, 0
  {
    if items == [] then ""
    else
      var head := if Nullish(items[0]) then "" else ToStr(items[0]);
      if |items| == 1 then head else head + sep + JoinVals(items[1..], sep)
  }

  /** Joining strings only. */
  function JoinStrings(parts: seq<string>, sep: string): string {
    if parts == [] then ""
    else if |parts| == 1 then parts[0]
    else parts[0] + sep + JoinStrings(parts[1..], sep)
  }

  /** Joining values that are all strings is joining their texts. */
  lemma {:induction false} JoinValsOfStrings(items: seq<Val>, sep: string)
    requires forall i :: 0 <= i < |items| ==> items[i].Str?
    ensures JoinVals(items, sep) == JoinStrings(seq(|items|, i requires 0 <= i < |items| => items[i].s), sep)
  {
    if |items| > 1 {
      JoinValsOfStrings(items[1..], sep);
      var all := seq(|items|, i requires 0 <= i < |items| => items[i].s);
      var tail := seq(|items[1..]|, i requires 0 <= i < |items[1..]| => items[1..][i].s);
      assert all[1..] == tail;
    }
  }

  /** The error thrown by `new Error(message)`, seen through `e?.message`. */
  function ErrorWithMessage(message: string): (e: Val)
    ensures Get(e, "message") == Str(message)
  {
    Obj(map["message" := Str(message)])
  }

  /**
   * An optional callback prop `f?.(...)` as one call sees it: not given (the call is
   * skipped), given and returning, or given and throwing `error`.
   */
  datatype Callback = Absent | Returns | Throws(error: Val)

  /** `o || d` for an optional string: the empty string counts as missing. */
  function OptOr(o: Option<string>, d: string): (r: string)
    ensures o.Some? && o.value != "" ==> r == o.value
    ensures o.None? || o.value == "" ==> r == d
  {
    if o.Some? && o.value != "" then o.value else d
  }
}
