/** The `Crypto` helpers of the security library.
    Cipher, key derivation and HMAC are modelled symbolically: a ciphertext
    records the algorithm, the derived key, the IV and the plaintext it seals,
    so that only a holder of the same password, salt and IV can open it; a
    digest records the key and the message it was computed from. Random bytes
    and library faults are inputs. */
module Crypto {
  import opened Wrappers

  type byte = x: int | 0 <= x < 256

  predicate IsHexChar(c: char) {
    '0' <= c <= '9' || 'a' <= c <= 'f' || 'A' <= c <= 'F'
  }

  predicate IsHex(s: string) {
    forall i :: 0 <= i < |s| ==> IsHexChar(s[i])
  }

  function HexChar(d: int): (c: char)
    requires 0 <= d < 16
    ensures IsHexChar(c)
  {
    if d < 10 then ('0' as int + d) as char else ('a' as int + d - 10) as char
  }

  function HexValue(c: char): (d: int)
    requires IsHexChar(c)
    ensures 0 <= d < 16
  {
    if '0' <= c <= '9' then c as int - '0' as int
    else if 'a' <= c <= 'f' then c as int - 'a' as int + 10
    else c as int - 'A' as int + 10
  }

  /** `Buffer.from(bytes).toString('hex')`: two lower-case hex digits per byte. */
  function HexEncode(b: seq<byte>): (s: string)
    ensures |s| == 2 * |b|
    ensures IsHex(s)
  {
    if |b| == 0 then [] else [HexChar(b[0] / 16), HexChar(b[0] % 16)] + HexEncode(b[1..])
  }

  /** `Buffer.from(s, 'hex')`: decodes pairs of hex digits and stops at the first
      pair that is not one (a trailing odd digit is dropped). */
  function HexDecode(s: string): (b: seq<byte>)
    ensures |b| <= |s| / 2
  {
    if |s| < 2 || !IsHexChar(s[0]) || !IsHexChar(s[1]) then []
    else [HexValue(s[0]) * 16 + HexValue(s[1])] + HexDecode(s[2..])
  }

  lemma {:induction false} HexRoundTrip(b: seq<byte>)
    ensures HexDecode(HexEncode(b)) == b
  {
    if |b| > 0 {
      var s := HexEncode(b);
      assert s[2..] == HexEncode(b[1..]);
      HexRoundTrip(b[1..]);
      assert HexValue(HexChar(b[0] / 16)) * 16 + HexValue(HexChar(b[0] % 16)) == b[0];
    }
  }

  /** The key `scryptSync(password, salt, keyLength)` derives. */
  datatype Key = Scrypt(password: string, salt: seq<byte>, keyLength: int)

  /** Output of `createCipheriv(algorithm, key, iv)` over the JSON text of `plaintext`. */
  datatype Ciphertext<T> = Sealed(algorithm: string, key: Key, iv: seq<byte>, plaintext: T)

  /** The `Decipheriv` envelope: hex salt, hex IV and the ciphertext. */
  datatype Envelope<T> = Envelope(salt: string, iv: string, data: Ciphertext<T>)

  /** `config.ALGORITHM`, `Number(config.KEY_LENGTH)`. */
  datatype CipherConfig = CipherConfig(algorithm: string, keyLength: int)

  const FAILURE_PREFIX := "Encryption failed using scrypt: "

  /** `Crypto.cipheriv(text, password)`. `salt` and `iv` are the bytes the random
      source fills (16 and IV_LENGTH of them); `fault` is the message of an
      exception thrown by the cipher library, if any. */
  function Cipheriv<T>(text: T, password: string, cfg: CipherConfig, salt: seq<byte>, iv: seq<byte>,
                       fault: Option<string>): (r: Result<Envelope<T>, string>)
    requires |salt| == 16
    ensures r.Err? <==> fault.Some?
    ensures r.Err? ==> r.error == FAILURE_PREFIX + fault.value
    ensures r.Ok? ==> |r.value.salt| == 32 && IsHex(r.value.salt) && HexDecode(r.value.salt) == salt
    ensures r.Ok? ==> |r.value.iv| == 2 * |iv| && IsHex(r.value.iv) && HexDecode(r.value.iv) == iv
  {
    HexRoundTrip(salt);
    HexRoundTrip(iv);
    match fault
    case Some(m) => Err(FAILURE_PREFIX + m)
    case None =>
      var key := Scrypt(password, salt, cfg.keyLength);
      Ok(Envelope(HexEncode(salt), HexEncode(iv), Sealed(cfg.algorithm, key, iv, text)))
  }

  /** `Crypto.decipheriv(data, password)`: the key is re-derived from the password
      and the hex-decoded salt; any mismatch fails like a bad decrypt. */
  function Decipheriv<T>(env: Envelope<T>, password: string, cfg: CipherConfig,
                         fault: Option<string>): (r: Result<T, string>)
    ensures r.Ok? ==> fault.None? && env.data.key == Scrypt(password, HexDecode(env.salt), cfg.keyLength)
    ensures r.Ok? ==> r.value == env.data.plaintext
    ensures r.Err? ==> |r.error| >= |FAILURE_PREFIX| && r.error[..|FAILURE_PREFIX|] == FAILURE_PREFIX
  {
    var salt := HexDecode(env.salt);
    var iv := HexDecode(env.iv);
    var key := Scrypt(password, salt, cfg.keyLength);
    if fault.Some? then Err(FAILURE_PREFIX + fault.value)
    else if env.data.algorithm == cfg.algorithm && env.data.key == key && env.data.iv == iv
    then Ok(env.data.plaintext)
    else Err(FAILURE_PREFIX + "bad decrypt")
  }

  /** Decrypting what was encrypted with the same password and settings gives the input back. */
  lemma CipherRoundTrip<T>(text: T, password: string, cfg: CipherConfig, salt: seq<byte>, iv: seq<byte>)
    requires |salt| == 16
    ensures Cipheriv(text, password, cfg, salt, iv, None).Ok?
    ensures Decipheriv(Cipheriv(text, password, cfg, salt, iv, None).value, password, cfg, None) == Ok(text)
  {
    HexRoundTrip(salt);
    HexRoundTrip(iv);
  }

  /** A different password never opens the envelope. */
  lemma WrongPasswordFails<T>(text: T, password: string, other: string, cfg: CipherConfig,
                              salt: seq<byte>, iv: seq<byte>)
    requires |salt| == 16 && other != password
    ensures Decipheriv(Cipheriv(text, password, cfg, salt, iv, None).value, other, cfg, None).Err?
  {
  }

  /** An HMAC-SHA256 digest, in hex in the source. */
  datatype Digest = HmacSha256(key: string, message: string)

  /** `Crypto.hmac(payload, key)`; callers pass `config.HMAC_SECRET` as the default key. */
  function Hmac(payload: string, key: string): Digest {
    HmacSha256(key, payload)
  }

  /** `Crypto.randomHexString(length)`, given the `length` random bytes drawn. */
  function RandomHexString(length: nat, bytes: seq<byte>): (s: string)
    requires |bytes| == length
    ensures |s| == 2 * length && IsHex(s)
    ensures HexDecode(s) == bytes
  {
    HexRoundTrip(bytes);
    HexEncode(bytes)
  }

  /** `crypto.timingSafeEqual(a, b)`: throws when the lengths differ, otherwise
      compares every position. */
  function TimingSafeEqual(a: seq<char>, b: seq<char>): (r: Result<bool, string>)
    ensures r.Err? <==> |a| != |b|
    ensures r.Ok? ==> (r.value <==> a == b)
  {
    if |a| != |b| then Err("Input buffers must have the same byte length")
    else Ok(forall i :: 0 <= i < |a| ==> a[i] == b[i])
  }

  /** `Crypto.safeCompare(a, b)`: false on differing lengths, else `timingSafeEqual`. */
  function SafeCompare(a: string, b: string): (r: bool)
    ensures r <==> a == b
  {
    if |a| != |b| then false else TimingSafeEqual(a, b).value
  }
}
