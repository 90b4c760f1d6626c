# Field encryption mixin: a Dafny model

This project models the engine of a LoopBack mixin that encrypts named fields of
model records. The mixin hooks into a model's persistence lifecycle. Before a
record is written (`persist`) and when a query is built (`access`), it encrypts
every field whose name is in the configured `fields` list. After a record is read
(`loaded`), it decrypts those fields. The options are merged once, at setup, from
the model's own options and the application's `encryption` setting.

The model has six modules:

- `JsValue` (js_value.dfy) holds JavaScript values as finite trees. A value is
  `undefined`, `null`, a boolean, a number, a string, a function, a plain
  object, or an array. The module also defines truthiness, `isObject`,
  `Object.keys`, property reads and `[].concat`.
- `Cipher` (cipher.dfy) models `encrypt` and `decrypt`. Key derivation, the
  cipher and the decipher are opaque functions, and any of them may throw. The
  module fixes the constants the source passes to them: a 32-byte key,
  `sha512`, and `aes-256-cbc`. It also states the catch-all policy: on any
  failure the input comes back unchanged.
- `FieldTransform` (field_transform.dfy) models `encryptOrDecryptValues`.
  `Transform` is the pass written as a function. `EncryptOrDecryptValues` is
  the source's loop over `Object.keys`, and it is proved to compute `Transform`.
  The lemmas cover every depth of the record. Paths are neither added nor
  removed. A nested object or array is recursed into, never encrypted. A leaf
  changes only when its key is a target. A decrypt pass undoes an encrypt pass
  whenever the cipher round-trips.
- `MixinOptions` (mixin_options.dfy) models the option merge and validation.
  The `Options` class is the mutable `options` object, and its methods follow
  the setup callback. The pure functions `Merge`, `Missing` and `Setup` specify
  what those methods do.
- `EncryptionMixin` (encryption_mixin.dfy) models the three hooks. It holds the
  event-to-direction table and the hook body. It proves that `loaded` undoes
  `persist`, and that an absent `fields` setting changes nothing. It also works
  through one example record.
- `Wrappers` (wrappers.dfy) holds `Option` and `Result`.

Two consequences of the code are easy to miss:

- Arrays are traversed. `isObject` (encryption.js:66-68) is true for arrays, so
  the pass recurses into them. It visits their elements under the keys `"0"`,
  `"1"`, and so on. So a `secret` field inside an array element is encrypted
  (`PersistExample`).
- `fields` can never be reported missing. Line 23 turns any value into an
  array, and an array is truthy, so the check on line 28 always passes for
  `fields`. When `fields` is set nowhere it becomes `[undefined]`, which matches
  no key, so every hook leaves records unchanged (`FieldsNeverMissing`,
  `AbsentFieldsChangeNothing`).

Because `Encrypt` is a function of the settings and the input, and the IV is
fixed, the same plaintext always gives the same ciphertext under one
configuration.

## Model

| member | source | states |
|---|---|---|
| JsValue.Get | encryption.js:54 | `object[key]` finds a value exactly when `key` is one of the keys `Object.keys` reports, and the value it finds is the one stored under that key: the child in the position where `Object.keys` lists `key` |
| JsValue.GetSlot | encryption.js:53-54 | in an object whose keys are unique, as every JavaScript object's are, reading the i-th key that `Object.keys` reports gives the i-th value, so the loop may read its slots by position |
| JsValue.ConcatToArray | encryption.js:23 | `[].concat(x)` is always an array: an array comes back as it is, and any other value becomes the one-element array `[x]` |
| Cipher.Encrypt | encryption.js:70-89 | the result is the input or a string; if key derivation throws, or any step of the `try` block throws, the input is returned unchanged; otherwise the result is the `update` output followed by the `final` output |
| Cipher.Decrypt | encryption.js:91-110 | the same policy for decryption: any failure returns the input unchanged, and success returns the joined decipher output |
| FieldTransform.ApplyAction | encryption.js:61 | encrypting or decrypting a leaf never produces an object or array |
| FieldTransform.Transform | encryption.js:52-68 | a pass keeps an object an object and an array an array, with exactly the same keys in the same order; a value that is not an object is left as it is |
| FieldTransform.EncryptOrDecryptValues | encryption.js:52-64 | the `forEach` loop, recursing into nested objects and overwriting targeted leaves, computes `Transform` |
| FieldTransform.TransformChild | encryption.js:53-63 | under each key, the pass recurses into an object, encrypts or decrypts a leaf whose key is a target, and keeps any other leaf; a key that is absent stays absent |
| FieldTransform.TransformAt | encryption.js:53-68 | at every depth, a path exists after the pass if and only if it existed before; an object or array found at a path has been transformed in turn, never passed to `encrypt`/`decrypt`; a leaf is handed to `encrypt`/`decrypt` exactly when the last key of its path is a target, and otherwise keeps its value |
| FieldTransform.TransformKeepsUniqueKeys | encryption.js:52-64 | a pass never gives an object two equal keys at any depth, so the record keeps the shape of a JavaScript object |
| FieldTransform.NoTargetsIsIdentity | encryption.js:60 | when no element of `keysToModify` is a string (such as `[undefined]`), the pass changes nothing |
| FieldTransform.DecryptPassUndoesEncryptPass | encryption.js:52-64 | a decrypt pass after an encrypt pass, with the same fields and settings, gives back the original record whenever every targeted leaf round-trips through the cipher |
| MixinOptions.Merge | encryption.js:15-23 | `salt`, `iv` and `password` are the local value when truthy, else the global one; `iterations` is local, else global, else 10; `fields` is always an array: the local array or value, else the global one, wrapped by `[].concat` |
| MixinOptions.MissingAmongExactly | encryption.js:27-31 | a name is reported missing if and only if it is required and its option is falsy |
| MixinOptions.MissingInRequiredOrder | encryption.js:25-31 | the missing list holds exactly the falsy ones among salt, iv, password and fields, in that order |
| MixinOptions.FieldsNeverMissing | encryption.js:20-31 | after the merge, `fields` is never among the missing options |
| MixinOptions.SetupFailsIffMissing | encryption.js:25-37 | setup throws if and only if some required option is falsy after the merge; the message lists the missing names joined by spaces; otherwise the merged options stand |
| MixinOptions.Options.constructor | encryption.js:7 | the options object starts out holding the options given with the model |
| MixinOptions.Options.ApplyDefaults | encryption.js:15-23 | reassigns the five options to their merged values, leaving `fields` an array |
| MixinOptions.Options.MissingOptions | encryption.js:25-31 | the loop collects exactly the required options that are falsy, in the order of `REQUIRED_OPTIONS` |
| MixinOptions.Options.Configure | encryption.js:10-38 | the setup callback leaves the merged options in place and reports an error exactly when setup fails, with that message |
| EncryptionMixin.ActionFor | encryption.js:40-50 | only `loaded` decrypts; `persist` and `access` encrypt |
| EncryptionMixin.HandleEvent | encryption.js:40-50 | a hook fails only on a null or undefined payload (`Object.keys` throws); otherwise the payload becomes the result of one pass over it, with the merged `fields` as the target keys and the direction the event calls for; its keys stay the same, and the other part of the context is left alone (`access` works on `query`, the others on `data`) |
| EncryptionMixin.HookLeaves | encryption.js:40-64 | for an object payload, every leaf at any depth under a key listed in `fields` becomes its decryption on `loaded` and its encryption on `persist` and `access`; every other leaf keeps its value |
| EncryptionMixin.Observe | encryption.js:40-50 | the hook body, running the loop with the options as they are when the event fires, does what `HandleEvent` specifies |
| EncryptionMixin.LoadedUndoesPersist | encryption.js:40-46 | running `loaded` on what `persist` produced restores the record, provided the cipher round-trips on its targeted leaves |
| EncryptionMixin.AbsentFieldsChangeNothing | encryption.js:20-23 | with `fields` set nowhere, the merged `fields` is `[undefined]`, it is not reported missing, and no hook changes an object payload |
| EncryptionMixin.PersistExample | encryption.js:52-68 | with `fields` = `["secret"]`, persisting `{a: x, secret: y, nested: {secret: z}, list: [{secret: w}]}`, for any strings `x`, `y`, `z` and `w`, encrypts all three `secret` leaves, including the one inside the array element, and keeps `a` |

## Left out

- The cryptography itself is not modelled. PBKDF2-HMAC-SHA512 (section 5.2 of RFC 8018), AES-256-CBC, and utf8/hex encoding are foreign library calls, so they are opaque functions that may fail. The round-trip law can therefore only be a hypothesis (`RoundTrips`), not a theorem.
- Which leaf values the cipher rejects is not modelled. For example, `cipher.update` throws on a number or `null`. This is left to the opaque cipher functions, and the fallback then returns the value unchanged.
- Logging is not modelled: `debug` and `console.error`.
- The LoopBack plumbing is not modelled. This covers `Model.getApp` and its error argument (an undefined `app` would make `app.get` throw), `app.get('encryption')` (it becomes a parameter), `Model.observe` registration, and the `async` wrappers.
- Setup runs asynchronously, so a hook can fire before the options are merged or validated. This race is not modelled. The hooks are modelled in the state after setup, where `fields` is an array; that is why `HandleEvent` and `Observe` require `fields` to be an array. Before setup, `keysToModify` can be a string, and then `includes` does substring matching.
- `src/index.js` is not part of this model. It only registers the mixin with the framework.
- The model does not capture in-place mutation, aliasing or cycles. The source mutates the record in place. Here a pass returns the rewritten tree, so records are finite, acyclic and unshared. A record whose objects are shared would be transformed once per reference in the source. On a cyclic record the recursion runs until the call stack overflows. The hook then fails with a RangeError, possibly after re-encrypting the leaves on the cycle many times.
- The `Obj` value kind can list the same key twice, which a JavaScript object cannot. `UniqueKeys` states the JavaScript invariant, and a pass preserves it (`TransformKeepsUniqueKeys`). `EncryptOrDecryptValues` reads slot i for the i-th key, which is `record[key]` when keys are unique (`GetSlot`). The method does not require unique keys, because the source demands nothing of its caller here.
- `Object.keys` order is the stored order. The engine's effect does not depend on it, because each key is handled independently.
- Objects are modelled as plain objects and dense arrays only. Array-like objects, sparse arrays, extra properties on arrays or functions, symbols, BigInt, and numbers as IEEE doubles (including NaN, which is falsy) are not modelled. Numbers are reals.
- A top-level payload that is a non-empty string, with a digit-named target field, is not modelled. This would assign onto a primitive string. It is treated like every other primitive payload: left unchanged.
- A property read on a primitive is not modelled (for example, a global `encryption` setting that is a string). Such reads give `undefined` here.
