/**
  The `encrypt` and `decrypt` helpers of encryption.js:70-110.

  Key derivation (PBKDF2-HMAC-SHA512, section 5.2 of RFC 8018) and AES-256-CBC
  are foreign library calls; they are parameters here, each of which may throw
  (`None`).  What is modelled is the wrapper around them: which settings are
  passed, how the two cipher outputs are joined, and the catch-all fallback
  that hands back the input unchanged.
*/
module Cipher {
  import opened Wrappers
  import opened JsValue

  /** Key length in bytes and digest name passed to `pbkdf2Sync` (encryption.js:77, 98). */
  const KEY_LENGTH: nat := 32
  const DIGEST: string := "sha512"
  /** Cipher name passed to `createCipheriv` / `createDecipheriv` (encryption.js:78, 99). */
  const ALGORITHM: string := "aes-256-cbc"

  /** The options `encrypt` and `decrypt` read at each call. */
  datatype Settings = Settings(salt: Value, iv: Value, iterations: Value, password: Value)

  /**
    The library operations, as opaque functions.  `None` stands for an exception.
    - pbkdf2Sync(password, salt, iterations, keyLength, digest): the derived key.
    - encipher(algorithm, key, iv, input): the hex strings returned by
      `cipher.update(input, 'utf8', 'hex')` and `cipher.final('hex')`.
    - decipher(algorithm, key, iv, input): the utf8 strings returned by
      `decipher.update(input, 'hex', 'utf8')` and `decipher.final('utf8')`.
  */
  datatype Crypto = Crypto(
    pbkdf2Sync: (Value, Value, Value, nat, string) -> Option<seq<bv8>>,
    encipher: (string, seq<bv8>, Value, Value) -> Option<(string, string)>,
    decipher: (string, seq<bv8>, Value, Value) -> Option<(string, string)>)

  /** The `try` block of `encrypt`: the ciphertext, or `None` if any step threw. */
  function TryEncrypt(c: Crypto, s: Settings, plaintext: Value): Option<string> {
    match c.pbkdf2Sync(s.password, s.salt, s.iterations, KEY_LENGTH, DIGEST)
    case None => None
    case Some(key) =>
      match c.encipher(ALGORITHM, key, s.iv, plaintext)
      case None => None
      case Some((updated, finalBlock)) => Some(updated + finalBlock)
  }

  /** The `try` block of `decrypt`: the plaintext, or `None` if any step threw. */
  function TryDecrypt(c: Crypto, s: Settings, ciphertext: Value): Option<string> {
    match c.pbkdf2Sync(s.password, s.salt, s.iterations, KEY_LENGTH, DIGEST)
    case None => None
    case Some(key) =>
      match c.decipher(ALGORITHM, key, s.iv, ciphertext)
      case None => None
      case Some((updated, finalBlock)) => Some(updated + finalBlock)
  }

  /** The `catch` policy shared by both helpers: a failure hands back the input. */
  function Recover(attempt: Option<string>, input: Value): (r: Value)
    ensures attempt.None? ==> r == input
    ensures attempt.Some? ==> r == Str(attempt.value)
  {
    match attempt
    case None => input
    case Some(out) => Str(out)
  }

  /** `encrypt(stringToEncrypt)`. */
  function Encrypt(c: Crypto, s: Settings, plaintext: Value): (r: Value)
    ensures r == plaintext || r.Str?
    ensures c.pbkdf2Sync(s.password, s.salt, s.iterations, KEY_LENGTH, DIGEST).None? ==> r == plaintext
    ensures TryEncrypt(c, s, plaintext).None? ==> r == plaintext
    ensures TryEncrypt(c, s, plaintext).Some? ==> r == Str(TryEncrypt(c, s, plaintext).value)
  {
    Recover(TryEncrypt(c, s, plaintext), plaintext)
  }

  /** `decrypt(stringToDecrypt)`. */
  function Decrypt(c: Crypto, s: Settings, ciphertext: Value): (r: Value)
    ensures r == ciphertext || r.Str?
    ensures c.pbkdf2Sync(s.password, s.salt, s.iterations, KEY_LENGTH, DIGEST).None? ==> r == ciphertext
    ensures TryDecrypt(c, s, ciphertext).None? ==> r == ciphertext
    ensures TryDecrypt(c, s, ciphertext).Some? ==> r == Str(TryDecrypt(c, s, ciphertext).value)
  {
    Recover(TryDecrypt(c, s, ciphertext), ciphertext)
  }
}
