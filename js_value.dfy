/**
  JavaScript values as the encryption mixin sees them: the records delivered by
  the persistence hooks, the option objects, and the values stored under a field.

  A value is a finite tree: plain objects and arrays hold their children in the
  order `Object.keys` reports them; everything else is a leaf.  Functions are
  kept as a leaf kind of their own because `isObject` (encryption.js:66-68)
  singles them out.
*/
module JsValue {
  import opened Wrappers

  datatype Value =
    | Undefined
    | Null
    | Bool(b: bool)
    | Num(n: real)
    | Str(s: string)
    | Func
    | Obj(props: seq<(string, Value)>)  // own enumerable properties, in `Object.keys` order
    | Arr(elems: seq<Value>)            // a dense array: its keys are "0", "1", ...

  /** JavaScript truthiness: `!v` is false.  (NaN is not representable, see README.) */
  predicate Truthy(v: Value) {
    match v
    case Undefined => false
    case Null => false
    case Bool(b) => b
    case Num(n) => n != 0.0
    case Str(s) => s != ""
    case Func => true
    case Obj(_) => true
    case Arr(_) => true
  }

  /** `v || w` */
  function Or(v: Value, w: Value): Value {
    if Truthy(v) then v else w
  }

  /** `value === Object(value)`: true exactly for references (objects, arrays, functions). */
  predicate IsReference(v: Value) {
    v.Func? || v.Obj? || v.Arr?
  }

  /** `isObject` of encryption.js:66-68: a reference that is not a function. */
  predicate IsObject(v: Value) {
    IsReference(v) && !v.Func?
  }

  function DigitChar(d: nat): char
    requires d < 10
  {
    "0123456789"[d]
  }

  /** The string key under which `Object.keys` reports array index `i`. */
  function IndexKey(i: nat): string
    decreases i
  {
    if i < 10 then [DigitChar(i)] else IndexKey(i / 10) + [DigitChar(i % 10)]
  }

  /** `Object.keys(v)` for an object or array; a leaf has no keys here. */
  function Keys(v: Value): (ks: seq<string>)
    ensures |ks| == |Children(v)|
  {
    match v
    case Obj(props) => seq(|props|, i requires 0 <= i < |props| => props[i].0)
    case Arr(elems) => seq(|elems|, i requires 0 <= i < |elems| => IndexKey(i))
    case _ => []
  }

  /** `v[k]` for each `k` of `Object.keys(v)`, in the same order. */
  function Children(v: Value): (cs: seq<Value>)
    ensures forall i :: 0 <= i < |cs| ==> cs[i] < v
  {
    match v
    case Obj(props) => seq(|props|, i requires 0 <= i < |props| => props[i].1)
    case Arr(elems) => elems
    case _ => []
  }

  /** The object or array `v` with the value under each of its keys replaced by `cs`. */
  function WithChildren(v: Value, cs: seq<Value>): (r: Value)
    requires IsObject(v) && |cs| == |Children(v)|
    ensures r.Obj? == v.Obj? && r.Arr? == v.Arr?
    ensures Keys(r) == Keys(v) && Children(r) == cs
  {
    match v
    case Obj(props) => Obj(seq(|props|, i requires 0 <= i < |props| => (props[i].0, cs[i])))
    case Arr(_) => Arr(cs)
  }

  /** Position of the first occurrence of `k` in `ks`. */
  function IndexOf(ks: seq<string>, k: string): (r: Option<nat>)
    ensures r.Some? ==> r.value < |ks| && ks[r.value] == k
    ensures r.Some? ==> forall j :: 0 <= j < r.value ==> ks[j] != k
    ensures r.None? <==> k !in ks
  {
    if ks == [] then None
    else if ks[0] == k then Some(0)
    else match IndexOf(ks[1..], k)
      case None => None
      case Some(j) => Some(j + 1)
  }

  /** Own property lookup `v[k]` on an object or array; `None` when `k` is not an own key. */
  function Get(v: Value, k: string): (r: Option<Value>)
    ensures r.Some? <==> k in Keys(v)
    ensures r.Some? ==> exists i :: 0 <= i < |Keys(v)| && Keys(v)[i] == k && r.value == Children(v)[i]
  {
    match IndexOf(Keys(v), k)
    case None => None
    case Some(i) => Some(Children(v)[i])
  }

  /** No two own keys of an object are equal, at any depth: what every JavaScript object satisfies. */
  predicate UniqueKeys(v: Value)
    decreases v
  {
    var ks, cs := Keys(v), Children(v);
    && (forall i, j :: 0 <= i < j < |ks| ==> ks[i] != ks[j])
    && (forall i :: 0 <= i < |cs| ==> UniqueKeys(cs[i]))
  }

  /** `v[k]` for a key `k` that `Object.keys(v)` lists first at position i is the i-th value. */
  lemma GetFirst(v: Value, i: nat)
    requires i < |Keys(v)|
    requires forall j :: 0 <= j < i ==> Keys(v)[j] != Keys(v)[i]
    ensures Get(v, Keys(v)[i]) == Some(Children(v)[i])
  {
    var j := IndexOf(Keys(v), Keys(v)[i]).value;
    assert !(j < i) && !(i < j);
  }

  /** With unique keys, `v[k]` for the i-th key of `Object.keys(v)` is the i-th value. */
  lemma GetSlot(v: Value, i: nat)
    requires UniqueKeys(v) && i < |Keys(v)|
    ensures Get(v, Keys(v)[i]) == Some(Children(v)[i])
  {
    GetFirst(v, i);
  }

  /** Property read `v.name` on a value that is not null or undefined; absent properties read as undefined. */
  function Prop(v: Value, name: string): Value {
    match Get(v, name)
    case None => Undefined
    case Some(x) => x
  }

  /** `[].concat(x)`: an array's elements are spread, any other value becomes a one-element array. */
  function ConcatToArray(x: Value): (r: Value)
    ensures r.Arr?
    ensures x.Arr? ==> r == x
    ensures !x.Arr? ==> r.elems == [x]
  {
    if x.Arr? then Arr(x.elems) else Arr([x])
  }
}
