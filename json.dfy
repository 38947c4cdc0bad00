/** JavaScript values as the console's code handles them, and the handful of
    JavaScript operators it relies on: truthiness, `||`, property access,
    object spread, `String(v)`, `toLowerCase` and `includes`. */
module Json {

  import opened Optional

  /** A JavaScript value. Numbers are integers here (no NaN, no fractions);
      `Undefined` is what a missing property reads as. */
  datatype Json =
    | Undefined
    | Null
    | Bool(b: bool)
    | Num(n: int)
    | Str(s: string)
    | Arr(items: seq<Json>)
    | Obj(fields: map<string, Json>)

  /** `Boolean(v)`: undefined, null, false, 0 and "" are falsy; every array
      and object, even an empty one, is truthy. */
  predicate Truthy(v: Json) {
    match v
    case Undefined => false
    case Null => false
    case Bool(b) => b
    case Num(n) => n != 0
    case Str(s) => s != ""
    case Arr(_) => true
    case Obj(_) => true
  }

  /** `a || b`: yields an operand, not a boolean. */
  function Or(a: Json, b: Json): Json {
    if Truthy(a) then a else b
  }

  /** `v?.key`: the property when `v` is an object that has it, `undefined`
      otherwise. */
  function Get(v: Json, key: string): Json {
    if v.Obj? && key in v.fields then v.fields[key] else Undefined
  }

  /** `{ ...r, ...updates }` for a record `r`. Only an object's own
      properties are spread here; any other `r` is treated as contributing
      none (JavaScript would spread a string's or an array's indices, a
      case the pages' records never reach in this model). */
  function With(r: Json, updates: map<string, Json>): (o: Json)
    ensures o.Obj?
    ensures forall k :: k in updates ==> Get(o, k) == updates[k]
    ensures forall k :: k !in updates ==> Get(o, k) == Get(r, k)
  {
    match r
    case Obj(m) => Obj(m + updates)
    case _ => Obj(updates)
  }

  /** A decimal numeral, as `String(n)` writes an integer. */
  function IntToString(n: int): (s: string)
    ensures s != []
    ensures n >= 0 ==> s[0] != '-'
  {
    if n < 0 then "-" + NatToString(-n) else NatToString(n)
  }

  function NatToString(n: nat): (s: string)
    ensures s != [] && s[0] != '-'
    ensures forall i :: 0 <= i < |s| ==> '0' <= s[i] <= '9'
  {
    if n < 10 then [Digit(n)] else NatToString(n / 10) + [Digit(n % 10)]
  }

  function Digit(d: nat): (c: char)
    requires d < 10
    ensures '0' <= c <= '9'
  {
    "0123456789"[d]
  }

  /** `String(v)`, which template literals and `localStorage.setItem` apply
      to their arguments. */
  function JsString(v: Json): string {
    match v
    case Undefined => "undefined"
    case Null => "null"
    case Bool(b) => if b then "true" else "false"
    case Num(n) => IntToString(n)
    case Str(s) => s
    case Arr(items) => JoinElements(items)
    case Obj(_) => "[object Object]"
  }

  /** `Array.prototype.toString`: elements joined by commas, with null and
      undefined written as nothing. */
  function JoinElements(items: seq<Json>): string
    decreases items
  {
    if items == [] then ""
    else
      var head := if items[0].Undefined? || items[0].Null? then "" else JsString(items[0]);
      if |items| == 1 then head else head + "," + JoinElements(items[1..])
  }

  /** Every truthy value other than an array converts to a non-empty
      string; an empty array is truthy yet converts to "". */
  lemma TruthyStringNonEmpty(v: Json)
    requires Truthy(v) && !v.Arr?
    ensures JsString(v) != ""
  {
  }

  lemma EmptyArrayConvertsToEmpty()
    ensures Truthy(Arr([])) && JsString(Arr([])) == ""
  {
  }

  /** `s.indexOf(c)`, reading "absent" as `|s|`. */
  function IndexOf(s: string, c: char): (i: nat)
    ensures i <= |s|
    ensures i < |s| ==> s[i] == c
    ensures forall j :: 0 <= j < i ==> s[j] != c
  {
    if s == [] || s[0] == c then 0 else 1 + IndexOf(s[1..], c)
  }

  /** The first `c` after a head free of `c` is the one right after it. */
  lemma {:induction false} IndexAfterHead(a: string, c: char, x: string)
    requires c !in a
    ensures IndexOf(a + [c] + x, c) == |a|
  {
    if a != [] {
      assert (a + [c] + x)[0] == a[0];
      assert (a + [c] + x)[1..] == a[1..] + [c] + x;
      IndexAfterHead(a[1..], c, x);
    }
  }

  /** `toLowerCase` on the ASCII letters. */
  function LowerChar(c: char): (d: char)
    ensures 'A' <= c <= 'Z' ==> d as int == c as int + 32
    ensures !('A' <= c <= 'Z') ==> d == c
  {
    if 'A' <= c <= 'Z' then (c as int + 32) as char else c
  }

  function Lower(s: string): (r: string)
    ensures |r| == |s|
    ensures forall i :: 0 <= i < |s| ==> r[i] == LowerChar(s[i])
  {
    seq(|s|, i requires 0 <= i < |s| => LowerChar(s[i]))
  }

  lemma LowerIdempotent(s: string)
    ensures Lower(Lower(s)) == Lower(s)
  {
  }

  /** `hay.includes(needle)`: `needle` occurs in `hay` at some offset. */
  predicate Includes(hay: string, needle: string)
    decreases |hay|
  {
    IsPrefix(needle, hay) || (hay != [] && Includes(hay[1..], needle))
  }

  predicate IsPrefix(p: string, s: string) {
    |p| <= |s| && s[..|p|] == p
  }

  /** Every string includes the empty string. */
  lemma IncludesEmpty(hay: string)
    ensures Includes(hay, "")
  {
    assert IsPrefix("", hay);
  }

  /** Every string includes itself. */
  lemma IncludesSelf(s: string)
    ensures Includes(s, s)
  {
    assert IsPrefix(s, s);
  }

  /** `field.toLowerCase().includes(term.toLowerCase())`: a
      case-insensitive substring test. */
  predicate Mentions(field: string, term: string) {
    Includes(Lower(field), Lower(term))
  }

  /** An empty term is mentioned by every string, and a string mentions
      itself whatever its case. */
  lemma MentionsEmptyAndSelf(field: string)
    ensures Mentions(field, "")
    ensures Mentions(field, field)
  {
    IncludesEmpty(Lower(field));
    IncludesSelf(Lower(field));
  }

  /** `field?.toLowerCase().includes(term.toLowerCase())`: false when the
      field is missing, otherwise a case-insensitive substring test. A
      number, boolean or object field makes the source throw; the model
      reads it as no match (such records are outside the model). */
  predicate FieldMatches(r: Json, key: string, term: string) {
    var f := Get(r, key);
    f.Str? && Mentions(f.s, term)
  }

  /** A field that matches an empty search term is exactly a string field. */
  lemma EmptyTermMatchesStringFields(r: Json, key: string)
    ensures FieldMatches(r, key, "") <==> Get(r, key).Str?
  {
    if Get(r, key).Str? {
      IncludesEmpty(Lower(Get(r, key).s));
    }
  }
}
