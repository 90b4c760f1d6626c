/**
  `encryptOrDecryptValues` (encryption.js:52-64): one pass over a record that
  recurses into every nested object or array and rewrites the leaves stored
  under a target key with `encrypt` or `decrypt`.

  `Transform` is the specification of the pass as a function on value trees;
  `EncryptOrDecryptValues` is the loop of the source, proved to compute it.
  The source mutates the record in place; here the pass returns the rewritten
  tree (records are finite, acyclic and unshared, see README).
*/
module FieldTransform {
  import opened Wrappers
  import opened JsValue
  import opened Cipher

  /** The `action` argument: `'encrypt'` (the default) or anything else, which decrypts. */
  datatype Action = ToEncrypt | ToDecrypt

  /** Everything one pass carries: the target keys, the direction and what `encrypt`/`decrypt` read. */
  datatype Pass = Pass(keysToModify: seq<Value>, action: Action, crypto: Crypto, settings: Settings)

  /** `keysToModify.includes(key)`: a key matches only an element that is that very string. */
  predicate Targets(keysToModify: seq<Value>, key: string) {
    Str(key) in keysToModify
  }

  /** `action === 'encrypt' ? encrypt(x) : decrypt(x)` */
  function ApplyAction(p: Pass, x: Value): (r: Value)
    ensures !IsObject(x) ==> !IsObject(r)
  {
    match p.action
    case ToEncrypt => Cipher.Encrypt(p.crypto, p.settings, x)
    case ToDecrypt => Cipher.Decrypt(p.crypto, p.settings, x)
  }

  /** What the pass leaves under `key` when it held `x`. */
  function Visit(p: Pass, key: string, x: Value): Value
    decreases x, 1
  {
    if IsObject(x) then Transform(p, x)
    else if Targets(p.keysToModify, key) then ApplyAction(p, x)
    else x
  }

  /** The record after the pass. */
  function Transform(p: Pass, v: Value): (r: Value)
    decreases v, 0
    ensures IsObject(r) <==> IsObject(v)
    ensures r.Obj? == v.Obj? && r.Arr? == v.Arr?
    ensures Keys(r) == Keys(v)
    ensures !IsObject(v) ==> r == v
  {
    if IsObject(v) then
      var ks, cs := Keys(v), Children(v);
      WithChildren(v, seq(|cs|, i requires 0 <= i < |cs| => Visit(p, ks[i], cs[i])))
    else
      v
  }

  /** The loop of encryption.js:53-63, over the keys `Object.keys(object)` reports. */
  method EncryptOrDecryptValues(p: Pass, record: Value) returns (result: Value)
    requires IsObject(record)
    ensures result == Transform(p, record)
    decreases record
  {
    var keys := Keys(record);
    var values := Children(record);
    var i := 0;
    while i < |keys|
      invariant 0 <= i <= |keys| == |values| == |Children(record)|
      invariant forall j :: 0 <= j < i ==> values[j] == Visit(p, keys[j], Children(record)[j])
      invariant forall j :: i <= j < |keys| ==> values[j] == Children(record)[j]
    {
      // JavaScript keys are unique (UniqueKeys), so `record[key]` is the i-th slot (GetSlot)
      var key := keys[i];
      if IsObject(values[i]) {
        var nested := EncryptOrDecryptValues(p, values[i]);
        assert nested == Visit(p, key, values[i]);
        values := values[i := nested];
      } else if Targets(p.keysToModify, key) {
        values := values[i := ApplyAction(p, values[i])];
      }
      i := i + 1;
    }
    assert values == seq(|keys|, j requires 0 <= j < |keys| => Visit(p, keys[j], Children(record)[j]));
    result := WithChildren(record, values);
  }

  // ---------------------------------------------------------------------------
  // Paths: where a value sits in a record

  /** The value reached from `v` by reading the keys of `path` in turn, if every step is an own key of an object or array. */
  function At(v: Value, path: seq<string>): Option<Value>
    decreases |path|
  {
    if path == [] then Some(v)
    else if !IsObject(v) then None
    else match Get(v, path[0])
      case None => None
      case Some(child) => At(child, path[1..])
  }

  /** One level of the pass: the value under each key is what `Visit` makes of it. */
  lemma TransformChild(p: Pass, v: Value, k: string)
    requires IsObject(v)
    ensures Get(v, k).None? ==> Get(Transform(p, v), k).None?
    ensures Get(v, k).Some? ==> Get(Transform(p, v), k) == Some(Visit(p, k, Get(v, k).value))
  {
    var r := Transform(p, v);
    match IndexOf(Keys(v), k)
    case None =>
    case Some(i) =>
      assert Children(r)[i] == Visit(p, Keys(v)[i], Children(v)[i]);
  }

  /**
    The pass at every depth: a path that exists before exists after and vice
    versa; an object or array found at a path has been transformed in turn (it
    is never handed to `encrypt`/`decrypt`); a leaf at the end of a non-empty
    path is handed to `encrypt`/`decrypt` exactly when the last key of the path
    is a target, and otherwise keeps its value.
  */
  lemma {:induction false} TransformAt(p: Pass, v: Value, path: seq<string>)
    ensures At(v, path).None? <==> At(Transform(p, v), path).None?
    ensures At(v, path).Some? && IsObject(At(v, path).value) ==>
              At(Transform(p, v), path) == Some(Transform(p, At(v, path).value))
    ensures At(v, path).Some? && !IsObject(At(v, path).value) && path != [] ==>
              At(Transform(p, v), path) ==
                Some(if Targets(p.keysToModify, path[|path| - 1]) then ApplyAction(p, At(v, path).value)
                     else At(v, path).value)
    decreases |path|
  {
    if path == [] || !IsObject(v) {
      return;
    }
    var k, rest := path[0], path[1..];
    var r := Transform(p, v);
    TransformChild(p, v, k);
    AtStep(v, path);
    AtStep(r, path);
    if Get(v, k).Some? {
      var child := Get(v, k).value;
      assert At(v, path) == At(child, rest);
      assert At(r, path) == At(Visit(p, k, child), rest);
      if IsObject(child) {
        TransformAt(p, child, rest);
        if rest != [] {
          assert path[|path| - 1] == rest[|rest| - 1];
        }
      } else if rest != [] {
        AtLeaf(child, rest);
        AtLeaf(Visit(p, k, child), rest);
      }
    }
  }

  /** Reading one key of a path. */
  lemma AtStep(v: Value, path: seq<string>)
    requires path != [] && IsObject(v)
    ensures Get(v, path[0]).None? ==> At(v, path).None?
    ensures Get(v, path[0]).Some? ==> At(v, path) == At(Get(v, path[0]).value, path[1..])
  {
  }

  /** A leaf has no keys to read. */
  lemma AtLeaf(x: Value, path: seq<string>)
    requires path != [] && !IsObject(x)
    ensures At(x, path).None?
  {
  }

  /** With no string among the target keys (e.g. `[undefined]`), the pass changes nothing. */
  lemma {:induction false} NoTargetsIsIdentity(p: Pass, v: Value)
    requires forall x :: x in p.keysToModify ==> !x.Str?
    ensures Transform(p, v) == v
    decreases v
  {
    if IsObject(v) {
      var ks, cs := Keys(v), Children(v);
      var cs' := seq(|cs|, i requires 0 <= i < |cs| => Visit(p, ks[i], cs[i]));
      forall i | 0 <= i < |cs|
        ensures cs'[i] == cs[i]
      {
        if IsObject(cs[i]) {
          NoTargetsIsIdentity(p, cs[i]);
        }
      }
      assert cs' == cs;
      SameChildrenSameValue(v, Transform(p, v));
    }
  }

  /** A pass never makes two keys of an object equal: records keep the shape of JavaScript objects. */
  lemma {:induction false} TransformKeepsUniqueKeys(p: Pass, v: Value)
    requires UniqueKeys(v)
    ensures UniqueKeys(Transform(p, v))
    decreases v
  {
    if IsObject(v) {
      var r := Transform(p, v);
      var ks, cs := Keys(v), Children(v);
      forall i | 0 <= i < |Children(r)|
        ensures UniqueKeys(Children(r)[i])
      {
        assert Children(r)[i] == Visit(p, ks[i], cs[i]);
        if IsObject(cs[i]) {
          TransformKeepsUniqueKeys(p, cs[i]);
        } else {
          assert !IsObject(Children(r)[i]);
          assert Keys(Children(r)[i]) == [] && Children(Children(r)[i]) == [];
        }
      }
    }
  }

  /** Two objects (or two arrays) with the same keys and the same children are the same value. */
  lemma SameChildrenSameValue(v: Value, w: Value)
    requires IsObject(v) && v.Obj? == w.Obj? && v.Arr? == w.Arr?
    requires Keys(v) == Keys(w) && Children(v) == Children(w)
    ensures v == w
  {
    match v
    case Obj(props) =>
      assert |props| == |w.props|;
      forall i | 0 <= i < |props|
        ensures props[i] == w.props[i]
      {
        assert Keys(v)[i] == Keys(w)[i] && Children(v)[i] == Children(w)[i];
      }
    case Arr(_) =>
  }

  // ---------------------------------------------------------------------------
  // Encrypting and then decrypting

  /** The cipher recovers `x`: decrypting what encrypting `x` produced gives `x` back. */
  predicate RoundTrips(c: Crypto, s: Settings, x: Value) {
    Cipher.Decrypt(c, s, Cipher.Encrypt(c, s, x)) == x
  }

  /** Every leaf of `v` stored under a target key round-trips through the cipher. */
  predicate TargetLeavesRoundTrip(keysToModify: seq<Value>, c: Crypto, s: Settings, v: Value)
    decreases v
  {
    var ks, cs := Keys(v), Children(v);
    forall i | 0 <= i < |cs| ::
      if IsObject(cs[i]) then TargetLeavesRoundTrip(keysToModify, c, s, cs[i])
      else Targets(keysToModify, ks[i]) ==> RoundTrips(c, s, cs[i])
  }

  /**
    A decrypt pass undoes an encrypt pass with the same fields and settings,
    provided the cipher round-trips on every targeted leaf.  (The cipher is
    opaque, so this is as far as the round-trip law can be proved.)
  */
  lemma {:induction false} DecryptPassUndoesEncryptPass(fields: seq<Value>, c: Crypto, s: Settings, v: Value)
    requires TargetLeavesRoundTrip(fields, c, s, v)
    ensures Transform(Pass(fields, ToDecrypt, c, s), Transform(Pass(fields, ToEncrypt, c, s), v)) == v
    decreases v
  {
    var enc, dec := Pass(fields, ToEncrypt, c, s), Pass(fields, ToDecrypt, c, s);
    if IsObject(v) {
      var e := Transform(enc, v);
      var d := Transform(dec, e);
      var ks, cs := Keys(v), Children(v);
      forall i | 0 <= i < |cs|
        ensures Children(d)[i] == cs[i]
      {
        assert Children(e)[i] == Visit(enc, ks[i], cs[i]);
        assert Children(d)[i] == Visit(dec, ks[i], Children(e)[i]);
        if IsObject(cs[i]) {
          DecryptPassUndoesEncryptPass(fields, c, s, cs[i]);
        }
      }
      SameChildrenSameValue(v, d);
    }
  }
}
