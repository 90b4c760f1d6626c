/**
  The three persistence hooks the mixin registers (encryption.js:40-50): each
  lifecycle event runs one pass of `encryptOrDecryptValues` over the record it
  delivers, in the direction the event calls for, with the merged `fields`.
*/
module EncryptionMixin {
  import opened Wrappers
  import opened JsValue
  import opened Cipher
  import opened FieldTransform
  import opened MixinOptions

  /** The lifecycle events observed. */
  datatype Event = Persist | Loaded | Access

  /** The record handed to the hooks: `context.data` and `context.query`. */
  datatype Context = Context(data: Value, query: Value)

  /** `Object.keys(null)` and `Object.keys(undefined)` throw a TypeError. */
  datatype HookError = KeysOfNullOrUndefined

  /** The direction each event runs the pass in: only `loaded` decrypts. */
  function ActionFor(e: Event): (a: Action)
    ensures a == ToDecrypt <==> e == Loaded
  {
    match e
    case Persist => ToEncrypt
    case Loaded => ToDecrypt
    case Access => ToEncrypt
  }

  /** `persist` and `loaded` work on `context.data`, `access` on `context.query`. */
  function Payload(e: Event, ctx: Context): Value {
    if e == Access then ctx.query else ctx.data
  }

  function WithPayload(e: Event, ctx: Context, v: Value): (r: Context)
    ensures Payload(e, r) == v
    ensures e == Access ==> r.data == ctx.data
    ensures e != Access ==> r.query == ctx.query
  {
    if e == Access then ctx.(query := v) else ctx.(data := v)
  }

  /** The pass a hook runs, configured from the options as they are when the event fires. */
  function PassFor(o: OptionValues, c: Crypto, e: Event): Pass
    requires o.fields.Arr?
  {
    Pass(o.fields.elems, ActionFor(e), c, CipherSettings(o))
  }

  /**
    What a hook does to its context: the payload is transformed; a payload that
    is not an object or array is left alone, except that null and undefined
    make `Object.keys` throw.
  */
  function HandleEvent(o: OptionValues, c: Crypto, e: Event, ctx: Context): (r: Result<Context, HookError>)
    requires o.fields.Arr?
    ensures r.Err? <==> Payload(e, ctx).Undefined? || Payload(e, ctx).Null?
    ensures r.Ok? ==> Keys(Payload(e, r.value)) == Keys(Payload(e, ctx))
    ensures r.Ok? && e == Access ==> r.value.data == ctx.data
    ensures r.Ok? && e != Access ==> r.value.query == ctx.query
    ensures r.Ok? ==> Payload(e, r.value) == Transform(PassFor(o, c, e), Payload(e, ctx))
  {
    var payload := Payload(e, ctx);
    if payload.Undefined? || payload.Null? then Err(KeysOfNullOrUndefined)
    else if !IsObject(payload) then Ok(ctx)
    else Ok(WithPayload(e, ctx, Transform(PassFor(o, c, e), payload)))
  }

  /** The hook body registered with `Model.observe` for event `e`. */
  method Observe(options: Options, c: Crypto, e: Event, ctx: Context) returns (r: Result<Context, HookError>)
    requires options.fields.Arr?
    ensures r == HandleEvent(options.Values(), c, e, ctx)
  {
    var payload := Payload(e, ctx);
    if payload.Undefined? || payload.Null? {
      return Err(KeysOfNullOrUndefined);
    }
    if !IsObject(payload) {
      return Ok(ctx);
    }
    var p := Pass(options.fields.elems, ActionFor(e), c, Cipher.Settings(options.salt, options.iv, options.iterations, options.password));
    var transformed := EncryptOrDecryptValues(p, payload);
    r := Ok(WithPayload(e, ctx, transformed));
  }

  /**
    A hook at every leaf of an object payload: a leaf under a key listed in
    `fields` is replaced by its decryption on `loaded` and by its encryption on
    `persist` and `access`; every other leaf keeps its value.
  */
  lemma HookLeaves(o: OptionValues, c: Crypto, e: Event, ctx: Context, path: seq<string>)
    requires o.fields.Arr?
    requires IsObject(Payload(e, ctx))
    requires path != [] && At(Payload(e, ctx), path).Some? && !IsObject(At(Payload(e, ctx), path).value)
    ensures HandleEvent(o, c, e, ctx).Ok?
    ensures var leaf := At(Payload(e, ctx), path).value;
            var s := CipherSettings(o);
            At(Payload(e, HandleEvent(o, c, e, ctx).value), path) ==
              Some(if Str(path[|path| - 1]) !in o.fields.elems then leaf
                   else if e == Loaded then Cipher.Decrypt(c, s, leaf)
                   else Cipher.Encrypt(c, s, leaf))
  {
    TransformAt(PassFor(o, c, e), Payload(e, ctx), path);
  }

  /**
    Reading back what was persisted: the `loaded` hook undoes the `persist`
    hook when both run with the same options and the cipher round-trips on
    every targeted leaf of the record.
  */
  lemma LoadedUndoesPersist(o: OptionValues, c: Crypto, ctx: Context)
    requires o.fields.Arr?
    requires IsObject(ctx.data)
    requires TargetLeavesRoundTrip(o.fields.elems, c, CipherSettings(o), ctx.data)
    ensures HandleEvent(o, c, Persist, ctx).Ok?
    ensures HandleEvent(o, c, Loaded, HandleEvent(o, c, Persist, ctx).value) == Ok(ctx)
  {
    var stored := HandleEvent(o, c, Persist, ctx).value;
    DecryptPassUndoesEncryptPass(o.fields.elems, c, CipherSettings(o), ctx.data);
    assert stored.data == Transform(PassFor(o, c, Persist), ctx.data);
    assert HandleEvent(o, c, Loaded, stored).value.data == ctx.data;
  }

  /**
    When `fields` is set neither locally nor globally it becomes `[undefined]`:
    setup does not complain about it, and no hook changes any record.
  */
  lemma AbsentFieldsChangeNothing(local: OptionValues, appSetting: Value, c: Crypto, e: Event, ctx: Context)
    requires !Truthy(local.fields) && Prop(appSetting, "fields") == Undefined
    requires IsObject(Payload(e, ctx))
    ensures Merge(local, appSetting).fields == Arr([Undefined])
    ensures "fields" !in Missing(Merge(local, appSetting))
    ensures HandleEvent(Merge(local, appSetting), c, e, ctx) == Ok(ctx)
  {
    var m := Merge(local, appSetting);
    FieldsNeverMissing(local, appSetting);
    NoTargetsIsIdentity(PassFor(m, c, e), Payload(e, ctx));
  }

  /** `{a: x, secret: y, nested: {secret: z}, list: [{secret: w}]}` for strings x, y, z, w */
  function ExampleRecord(x: string, y: string, z: string, w: string): Value {
    Obj([("a", Str(x)), ("secret", Str(y)),
         ("nested", Obj([("secret", Str(z))])),
         ("list", Arr([Obj([("secret", Str(w))])]))])
  }

  /** `{secret: x}` holds `x` under "secret". */
  lemma SecretOnlyAt(x: Value)
    ensures At(Obj([("secret", x)]), ["secret"]) == Some(x)
  {
    var o := Obj([("secret", x)]);
    assert Keys(o) == ["secret"];
    assert Get(o, "secret") == Some(x);
    assert ["secret"][1..] == [];
  }

  /** A one-element array holds its element under the key "0". */
  lemma SingletonArrayAt(x: Value, rest: seq<string>)
    ensures At(Arr([x]), ["0"] + rest) == At(x, rest)
  {
    var a := Arr([x]);
    assert IndexKey(0) == "0";
    assert Keys(a) == ["0"];
    assert Get(a, "0") == Some(x);
    assert (["0"] + rest)[1..] == rest;
  }

  /** The top-level keys of the example record and what they hold. */
  lemma ExampleRecordTop(x: string, y: string, z: string, w: string)
    ensures Get(ExampleRecord(x, y, z, w), "a") == Some(Str(x))
    ensures Get(ExampleRecord(x, y, z, w), "secret") == Some(Str(y))
    ensures Get(ExampleRecord(x, y, z, w), "nested") == Some(Obj([("secret", Str(z))]))
    ensures Get(ExampleRecord(x, y, z, w), "list") == Some(Arr([Obj([("secret", Str(w))])]))
  {
    var record := ExampleRecord(x, y, z, w);
    assert |Keys(record)| == 4;
    assert Keys(record)[0] == "a" && Keys(record)[1] == "secret";
    assert Keys(record)[2] == "nested" && Keys(record)[3] == "list";
    assert "a" != "secret" && "a" != "nested" && "secret" != "nested";
    assert "a" != "list" && "secret" != "list" && "nested" != "list";
    GetFirst(record, 0);
    GetFirst(record, 1);
    GetFirst(record, 2);
    GetFirst(record, 3);
  }

  /** Reading key `k` of `v` and then the keys of `rest`. */
  lemma AtThrough(v: Value, k: string, rest: seq<string>, child: Value)
    requires IsObject(v) && Get(v, k) == Some(child)
    ensures At(v, [k] + rest) == At(child, rest)
  {
    assert ([k] + rest)[0] == k && ([k] + rest)[1..] == rest;
  }

  /** A leaf read directly under `k`. */
  lemma LeafUnder(record: Value, k: string, x: Value)
    requires IsObject(record) && Get(record, k) == Some(x)
    ensures At(record, [k]) == Some(x)
  {
    AtThrough(record, k, [], x);
    assert [k] + [] == [k];
  }

  /** A leaf read under `k` of the object `{secret: x}`. */
  lemma SecretUnder(record: Value, k: string, x: Value)
    requires IsObject(record) && Get(record, k) == Some(Obj([("secret", x)]))
    ensures At(record, [k, "secret"]) == Some(x)
  {
    AtThrough(record, k, ["secret"], Obj([("secret", x)]));
    SecretOnlyAt(x);
    assert [k] + ["secret"] == [k, "secret"];
  }

  /** A leaf read under `k` of the array `[{secret: x}]`. */
  lemma SecretInArrayUnder(record: Value, k: string, x: Value)
    requires IsObject(record) && Get(record, k) == Some(Arr([Obj([("secret", x)])]))
    ensures At(record, [k, "0", "secret"]) == Some(x)
  {
    var element := Obj([("secret", x)]);
    AtThrough(record, k, ["0", "secret"], Arr([element]));
    SingletonArrayAt(element, ["secret"]);
    SecretOnlyAt(x);
    assert ["0"] + ["secret"] == ["0", "secret"];
    assert [k] + ["0", "secret"] == [k, "0", "secret"];
  }

  /**
    A pass with target keys ["secret"] on any record shaped like the example:
    the three leaves under "secret" are rewritten and the one under "a" is kept.
  */
  lemma SecretLeaves(p: Pass, record: Value, x: Value, y: Value, z: Value, w: Value)
    requires p.keysToModify == [Str("secret")]
    requires IsObject(record) && !IsObject(x) && !IsObject(y) && !IsObject(z) && !IsObject(w)
    requires Get(record, "a") == Some(x) && Get(record, "secret") == Some(y)
    requires Get(record, "nested") == Some(Obj([("secret", z)]))
    requires Get(record, "list") == Some(Arr([Obj([("secret", w)])]))
    ensures At(Transform(p, record), ["a"]) == Some(x)
    ensures At(Transform(p, record), ["secret"]) == Some(ApplyAction(p, y))
    ensures At(Transform(p, record), ["nested", "secret"]) == Some(ApplyAction(p, z))
    ensures At(Transform(p, record), ["list", "0", "secret"]) == Some(ApplyAction(p, w))
  {
    assert Targets(p.keysToModify, "secret") && !Targets(p.keysToModify, "a");
    LeafUnder(record, "a", x);
    LeafUnder(record, "secret", y);
    SecretUnder(record, "nested", z);
    SecretInArrayUnder(record, "list", w);
    LeafAt(p, record, ["a"], x);
    LeafAt(p, record, ["secret"], y);
    LeafAt(p, record, ["nested", "secret"], z);
    LeafAt(p, record, ["list", "0", "secret"], w);
  }

  /** The `persist` hook with `fields` = ["secret"] on any record shaped like the example. */
  lemma PersistSecretLeaves(o: OptionValues, c: Crypto, record: Value, x: Value, y: Value, z: Value, w: Value)
    requires o.fields == Arr([Str("secret")])
    requires IsObject(record) && !IsObject(x) && !IsObject(y) && !IsObject(z) && !IsObject(w)
    requires Get(record, "a") == Some(x) && Get(record, "secret") == Some(y)
    requires Get(record, "nested") == Some(Obj([("secret", z)]))
    requires Get(record, "list") == Some(Arr([Obj([("secret", w)])]))
    ensures HandleEvent(o, c, Persist, Context(record, Undefined)).Ok?
    ensures var stored := HandleEvent(o, c, Persist, Context(record, Undefined)).value.data;
            var s := CipherSettings(o);
            && At(stored, ["a"]) == Some(x)
            && At(stored, ["secret"]) == Some(Cipher.Encrypt(c, s, y))
            && At(stored, ["nested", "secret"]) == Some(Cipher.Encrypt(c, s, z))
            && At(stored, ["list", "0", "secret"]) == Some(Cipher.Encrypt(c, s, w))
  {
    var p := PassFor(o, c, Persist);
    assert HandleEvent(o, c, Persist, Context(record, Undefined)).value.data == Transform(p, record);
    SecretLeaves(p, record, x, y, z, w);
  }

  /** `TransformAt` for one leaf, named by the last key of its path. */
  lemma LeafAt(p: Pass, record: Value, path: seq<string>, x: Value)
    requires path != [] && At(record, path) == Some(x) && !IsObject(x)
    ensures At(Transform(p, record), path) ==
              Some(if Targets(p.keysToModify, path[|path| - 1]) then ApplyAction(p, x) else x)
  {
    TransformAt(p, record, path);
  }

  /**
    With `fields` = ["secret"], persisting the example record encrypts its
    three `secret` leaves, including the one inside the array element (reached
    under the key "0"), and leaves `a` alone.
  */
  lemma PersistExample(o: OptionValues, c: Crypto, x: string, y: string, z: string, w: string)
    requires o.fields == Arr([Str("secret")])
    ensures HandleEvent(o, c, Persist, Context(ExampleRecord(x, y, z, w), Undefined)).Ok?
    ensures var stored := HandleEvent(o, c, Persist, Context(ExampleRecord(x, y, z, w), Undefined)).value.data;
            var s := CipherSettings(o);
            && At(stored, ["a"]) == Some(Str(x))
            && At(stored, ["secret"]) == Some(Cipher.Encrypt(c, s, Str(y)))
            && At(stored, ["nested", "secret"]) == Some(Cipher.Encrypt(c, s, Str(z)))
            && At(stored, ["list", "0", "secret"]) == Some(Cipher.Encrypt(c, s, Str(w)))
  {
    ExampleRecordTop(x, y, z, w);
    PersistSecretLeaves(o, c, ExampleRecord(x, y, z, w), Str(x), Str(y), Str(z), Str(w));
  }
}
