/**
  The option handling of the mixin's setup (encryption.js:4-5, 15-37): the
  `options` object is completed from the application's `encryption` setting,
  `fields` is turned into an array, and the required options are checked in a
  fixed order, all missing names being reported in one error.
*/
module MixinOptions {
  import opened Wrappers
  import opened JsValue
  import Cipher

  const DEFAULT_ITERATIONS: Value := Num(10.0)
  const REQUIRED_OPTIONS: seq<string> := ["salt", "iv", "password", "fields"]
  const MISSING_PREFIX: string := "These options are required but mssing: "

  /** The five options, as values. */
  datatype OptionValues = OptionValues(salt: Value, iv: Value, iterations: Value, password: Value, fields: Value) {
    /** `options[name]` */
    function Get(name: string): Value {
      if name == "salt" then salt
      else if name == "iv" then iv
      else if name == "iterations" then iterations
      else if name == "password" then password
      else if name == "fields" then fields
      else Undefined
    }
  }

  /** The option values read from a JavaScript object (an absent property reads as undefined). */
  function FromObject(o: Value): OptionValues {
    OptionValues(Prop(o, "salt"), Prop(o, "iv"), Prop(o, "iterations"), Prop(o, "password"), Prop(o, "fields"))
  }

  /**
    The options after lines 15-23, from the local options and the value of
    `app.get('encryption')`: each setting is the local one when truthy and the
    global one otherwise, `iterations` falls back to 10, and `fields` is
    wrapped by `[].concat`.
  */
  function Merge(local: OptionValues, appSetting: Value): (m: OptionValues)
    ensures m.salt == (if Truthy(local.salt) then local.salt else Prop(appSetting, "salt"))
    ensures m.iv == (if Truthy(local.iv) then local.iv else Prop(appSetting, "iv"))
    ensures m.password == (if Truthy(local.password) then local.password else Prop(appSetting, "password"))
    ensures Truthy(local.iterations) ==> m.iterations == local.iterations
    ensures !Truthy(local.iterations) && Truthy(Prop(appSetting, "iterations")) ==>
              m.iterations == Prop(appSetting, "iterations")
    ensures !Truthy(local.iterations) && !Truthy(Prop(appSetting, "iterations")) ==>
              m.iterations == DEFAULT_ITERATIONS
    ensures m.fields.Arr?
    ensures Truthy(local.fields) && local.fields.Arr? ==> m.fields == local.fields
    ensures Truthy(local.fields) && !local.fields.Arr? ==> m.fields.elems == [local.fields]
    ensures !Truthy(local.fields) ==> m.fields == ConcatToArray(Prop(appSetting, "fields"))
  {
    var global := FromObject(Or(appSetting, Obj([])));
    OptionValues(
      Or(local.salt, global.salt),
      Or(local.iv, global.iv),
      Or(Or(local.iterations, global.iterations), DEFAULT_ITERATIONS),
      Or(local.password, global.password),
      ConcatToArray(Or(local.fields, global.fields)))
  }

  /** The names of `required`, in order, whose option is falsy. */
  function MissingAmong(o: OptionValues, required: seq<string>): (r: seq<string>)
    decreases |required|
  {
    if required == [] then []
    else
      var name := required[|required| - 1];
      MissingAmong(o, required[..|required| - 1]) + (if Truthy(o.Get(name)) then [] else [name])
  }

  /** The `missingOptions` list of lines 25-31. */
  function Missing(o: OptionValues): seq<string> {
    MissingAmong(o, REQUIRED_OPTIONS)
  }

  /** `names.join(sep)` */
  function Join(names: seq<string>, sep: string): string
    decreases |names|
  {
    if names == [] then ""
    else if |names| == 1 then names[0]
    else names[0] + sep + Join(names[1..], sep)
  }

  /** The outcome of the setup callback: the merged options, or the message of the error it throws. */
  function Setup(local: OptionValues, appSetting: Value): Result<OptionValues, string> {
    var merged := Merge(local, appSetting);
    var missing := Missing(merged);
    if |missing| != 0 then Err(MISSING_PREFIX + Join(missing, " ")) else Ok(merged)
  }

  /** The settings `encrypt` and `decrypt` read. */
  function CipherSettings(o: OptionValues): Cipher.Settings {
    Cipher.Settings(o.salt, o.iv, o.iterations, o.password)
  }

  /** A name is reported missing exactly when it is required and its option is falsy. */
  lemma {:induction false} MissingAmongExactly(o: OptionValues, required: seq<string>, name: string)
    ensures name in MissingAmong(o, required) <==> name in required && !Truthy(o.Get(name))
    decreases |required|
  {
    if required != [] {
      var init := required[..|required| - 1];
      MissingAmongExactly(o, init, name);
      assert required == init + [required[|required| - 1]];
    }
  }

  /** `missingOptions` holds exactly the falsy required options, in the order salt, iv, password, fields. */
  lemma MissingInRequiredOrder(o: OptionValues)
    ensures Missing(o) ==
      (if Truthy(o.salt) then [] else ["salt"]) +
      (if Truthy(o.iv) then [] else ["iv"]) +
      (if Truthy(o.password) then [] else ["password"]) +
      (if Truthy(o.fields) then [] else ["fields"])
  {
    GetRequired(o);
    MissingAmongFour(o, "salt", "iv", "password", "fields");
  }

  /** Checking four names one after the other. */
  lemma MissingAmongFour(o: OptionValues, a: string, b: string, c: string, d: string)
    ensures MissingAmong(o, [a, b, c, d]) ==
      (if Truthy(o.Get(a)) then [] else [a]) + (if Truthy(o.Get(b)) then [] else [b]) +
      (if Truthy(o.Get(c)) then [] else [c]) + (if Truthy(o.Get(d)) then [] else [d])
  {
    MissingAmongSnoc(o, [], a);
    MissingAmongSnoc(o, [a], b);
    MissingAmongSnoc(o, [a, b], c);
    MissingAmongSnoc(o, [a, b, c], d);
    assert [] + [a] == [a];
    assert [a] + [b] == [a, b];
    assert [a, b] + [c] == [a, b, c];
    assert [a, b, c] + [d] == [a, b, c, d];
  }

  /** `options[name]` for each required name reads the option of that name. */
  lemma GetRequired(o: OptionValues)
    ensures o.Get("salt") == o.salt && o.Get("iv") == o.iv
    ensures o.Get("password") == o.password && o.Get("fields") == o.fields
  {
    assert "iv" != "salt";
    assert "password" != "salt" && "password" != "iv" && "password" != "iterations";
    assert "fields" != "salt" && "fields" != "iv" && "fields" != "iterations" && "fields" != "password";
  }

  /** Checking one more name appends it when its option is falsy. */
  lemma MissingAmongSnoc(o: OptionValues, required: seq<string>, name: string)
    ensures MissingAmong(o, required + [name]) ==
              MissingAmong(o, required) + (if Truthy(o.Get(name)) then [] else [name])
  {
    assert (required + [name])[..|required|] == required;
  }

  /** After the merge, `fields` is an array, hence truthy, so it is never reported missing. */
  lemma FieldsNeverMissing(local: OptionValues, appSetting: Value)
    ensures "fields" !in Missing(Merge(local, appSetting))
  {
    var m := Merge(local, appSetting);
    GetRequired(m);
    assert Truthy(m.Get("fields"));
    MissingAmongExactly(m, REQUIRED_OPTIONS, "fields");
  }

  /** Setup fails exactly when some required option is missing after the merge, and the error names them all. */
  lemma SetupFailsIffMissing(local: OptionValues, appSetting: Value)
    ensures Setup(local, appSetting).Err? <==> exists name :: name in REQUIRED_OPTIONS && !Truthy(Merge(local, appSetting).Get(name))
    ensures Setup(local, appSetting).Err? ==>
              Setup(local, appSetting).error == MISSING_PREFIX + Join(Missing(Merge(local, appSetting)), " ")
    ensures Setup(local, appSetting).Ok? ==> Setup(local, appSetting).value == Merge(local, appSetting)
  {
    var m := Merge(local, appSetting);
    forall name
      ensures name in Missing(m) <==> name in REQUIRED_OPTIONS && !Truthy(m.Get(name))
    {
      MissingAmongExactly(m, REQUIRED_OPTIONS, name);
    }
    if |Missing(m)| != 0 {
      assert Missing(m)[0] in Missing(m);
    }
  }

  /**
    The mixin's `options` object, whose properties the setup callback
    reassigns (lines 16-23) and the hooks read later.
  */
  class Options {
    var salt: Value
    var iv: Value
    var iterations: Value
    var password: Value
    var fields: Value

    /** The properties as a value. */
    function Values(): OptionValues
      reads this
    {
      OptionValues(salt, iv, iterations, password, fields)
    }

    /** `options = {}` unless the model definition supplies them. */
    constructor (given: OptionValues)
      ensures Values() == given
    {
      salt, iv, iterations, password, fields := given.salt, given.iv, given.iterations, given.password, given.fields;
    }

    /** Lines 15-23: complete the options from the application setting and make `fields` an array. */
    method ApplyDefaults(appSetting: Value)
      modifies this
      ensures Values() == Merge(old(Values()), appSetting)
      ensures fields.Arr?
    {
      var globalOptions := Or(appSetting, Obj([]));
      salt := Or(salt, Prop(globalOptions, "salt"));
      iv := Or(iv, Prop(globalOptions, "iv"));
      iterations := Or(Or(iterations, Prop(globalOptions, "iterations")), DEFAULT_ITERATIONS);
      password := Or(password, Prop(globalOptions, "password"));
      fields := Or(fields, Prop(globalOptions, "fields"));
      fields := ConcatToArray(fields);
    }

    /** Lines 25-31: the required options whose value is falsy, in the order of `REQUIRED_OPTIONS`. */
    method MissingOptions() returns (missingOptions: seq<string>)
      ensures missingOptions == Missing(Values())
      ensures forall name :: name in missingOptions <==> name in REQUIRED_OPTIONS && !Truthy(Values().Get(name))
    {
      missingOptions := [];
      var i := 0;
      while i < |REQUIRED_OPTIONS|
        invariant 0 <= i <= |REQUIRED_OPTIONS|
        invariant missingOptions == MissingAmong(Values(), REQUIRED_OPTIONS[..i])
      {
        var requiredOption := REQUIRED_OPTIONS[i];
        if !Truthy(Values().Get(requiredOption)) {
          missingOptions := missingOptions + [requiredOption];
        }
        assert REQUIRED_OPTIONS[..i + 1][..i] == REQUIRED_OPTIONS[..i];
        i := i + 1;
      }
      assert REQUIRED_OPTIONS[..i] == REQUIRED_OPTIONS;
      forall name
        ensures name in missingOptions <==> name in REQUIRED_OPTIONS && !Truthy(Values().Get(name))
      {
        MissingAmongExactly(Values(), REQUIRED_OPTIONS, name);
      }
    }

    /** The `getApp` callback (lines 15-37): merge, then throw if anything required is missing. */
    method Configure(appSetting: Value) returns (error: Option<string>)
      modifies this
      ensures Values() == Merge(old(Values()), appSetting)
      ensures error.Some? <==> Setup(old(Values()), appSetting).Err?
      ensures error.Some? ==> error.value == Setup(old(Values()), appSetting).error
    {
      ApplyDefaults(appSetting);
      var missingOptions := MissingOptions();
      if |missingOptions| != 0 {
        error := Some(MISSING_PREFIX + Join(missingOptions, " "));
      } else {
        error := None;
      }
    }
  }
}
