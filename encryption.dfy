/** `EncryptionService`: the per-field envelope salt(64) ‖ iv(16) ‖ tag(16) ‖ ciphertext,
    Base64-encoded. The key is derived with PBKDF2 (HMAC-SHA-512, 100 000 iterations,
    32 bytes) from the user's key and the salt; the cipher is AES-256-GCM. */
module Encryption {
  import opened Wrappers
  import opened JsValues

  const ALGORITHM: string := "aes-256-gcm"
  const IV_LENGTH: nat := 16
  const SALT_LENGTH: nat := 64
  const TAG_LENGTH: nat := 16
  const KEY_LENGTH: nat := 32
  const ITERATIONS: nat := 100000
  const DIGEST: string := "sha512"

  /** Salt, iv and tag together: the bytes in front of the ciphertext. */
  const HEADER_LENGTH: nat := SALT_LENGTH + IV_LENGTH + TAG_LENGTH

  /** The message Node's decipher throws when the tag does not authenticate the data. */
  const AUTH_FAILED: string := "Unsupported state or unable to authenticate data"
  /** The message of the `SyntaxError` that `JSON.parse` throws. */
  const BAD_JSON: string := "Unexpected token in JSON"

  /** What the cipher produces: the ciphertext and its authentication tag. */
  datatype Sealed = Sealed(ciphertext: bytes, tag: bytes)

  /** The library calls the service makes. The model does not define them; the predicates
      below state what the service relies on them for. */
  datatype Primitives = Primitives(
    // crypto.pbkdf2Sync(password, salt, iterations, keylen, digest)
    pbkdf2: (string, bytes, nat, nat, string) -> bytes,
    // createCipheriv(algorithm, key, iv), update(plaintext) + final(), getAuthTag()
    seal: (string, bytes, bytes, bytes) -> Sealed,
    // createDecipheriv(algorithm, key, iv), setAuthTag(tag), update(ciphertext) + final();
    // None when final() throws
    open: (string, bytes, bytes, bytes, bytes) -> Option<bytes>,
    // JSON.stringify, then UTF-8 encoding
    stringify: Json -> bytes,
    // UTF-8 decoding, then JSON.parse; None when it throws
    parse: bytes -> Option<Json>,
    // buffer.toString('base64') and Buffer.from(text, 'base64'), which never throws
    base64Encode: bytes -> string,
    base64Decode: string -> bytes,
    // buffer.toString('hex')
    hex: bytes -> string)

  /** PBKDF2 returns as many bytes as asked for. */
  ghost predicate KeyLengthOk(p: Primitives) {
    forall pw, salt, n, len, d :: |p.pbkdf2(pw, salt, n, len, d)| == len
  }

  /** GCM's default tag is 16 bytes long. */
  ghost predicate TagLengthOk(p: Primitives) {
    forall k, iv, m :: |p.seal(ALGORITHM, k, iv, m).tag| == TAG_LENGTH
  }

  /** Opening what was sealed with the same key and iv gives the plaintext back. */
  ghost predicate CipherRoundTrip(p: Primitives) {
    forall k, iv, m ::
      p.open(ALGORITHM, k, iv, p.seal(ALGORITHM, k, iv, m).tag, p.seal(ALGORITHM, k, iv, m).ciphertext) == Some(m)
  }

  /** Once the tag check in `final()` passes, the ciphertext and tag are exactly what
      sealing the recovered plaintext under that key and iv gives: GCM is deterministic
      and its tag is computed over the ciphertext. */
  ghost predicate CipherAuthentic(p: Primitives) {
    forall k, iv, tag, ct, m ::
      p.open(ALGORITHM, k, iv, tag, ct) == Some(m) ==> p.seal(ALGORITHM, k, iv, m) == Sealed(ct, tag)
  }

  /** `JSON.parse(JSON.stringify(v))` gives `v` back. This holds for the values JSON can
      carry (strings, finite doubles, and arrays and objects of them), not for every value
      of `Json`: a real number that is no double does not survive the text form. */
  ghost predicate JsonCarries(p: Primitives, v: Json) {
    p.parse(p.stringify(v)) == Some(v)
  }

  ghost predicate Base64RoundTrip(p: Primitives) {
    forall b :: p.base64Decode(p.base64Encode(b)) == b
  }

  /** Hex encoding spends two lower-case hex digits per byte. */
  ghost predicate HexOk(p: Primitives) {
    forall b :: |p.hex(b)| == 2 * |b| && forall i :: 0 <= i < |p.hex(b)| ==> p.hex(b)[i] in "0123456789abcdef"
  }

  /** Everything the service relies on its primitives for, whatever the data. Which
      values JSON carries is stated per value, by `JsonCarries`. */
  ghost predicate Sound(p: Primitives) {
    KeyLengthOk(p) && TagLengthOk(p) && CipherRoundTrip(p) && CipherAuthentic(p) &&
    Base64RoundTrip(p) && HexOk(p)
  }

  /** The four parts of an envelope. */
  datatype Envelope = Envelope(salt: bytes, iv: bytes, tag: bytes, ciphertext: bytes)

  /** `Buffer.concat([salt, iv, tag, encrypted])`. */
  function Frame(e: Envelope): bytes {
    e.salt + e.iv + e.tag + e.ciphertext
  }

  function Min(a: int, b: int): int { if a <= b then a else b }

  /** `buffer.slice(start, end)`: both bounds are clamped to the buffer's length. */
  function Slice(b: bytes, start: nat, end: nat): (r: bytes)
    ensures |r| <= |b|
  {
    var s := Min(start, |b|);
    var e := Min(end, |b|);
    if s <= e then b[s..e] else []
  }

  /** The slicing in `decrypt`: [0,64), [64,80), [80,96) and [96,end), with no length check. */
  function Unframe(buffer: bytes): Envelope {
    Envelope(
      Slice(buffer, 0, SALT_LENGTH),
      Slice(buffer, SALT_LENGTH, SALT_LENGTH + IV_LENGTH),
      Slice(buffer, SALT_LENGTH + IV_LENGTH, HEADER_LENGTH),
      Slice(buffer, HEADER_LENGTH, |buffer|))
  }

  /** The key both directions derive: PBKDF2 over the user's key string and the salt. */
  function DeriveKey(p: Primitives, key: string, salt: bytes): bytes {
    p.pbkdf2(key, salt, ITERATIONS, KEY_LENGTH, DIGEST)
  }

  /** `generateEncryptionKey`: the hex form of 32 random bytes. */
  function GenerateEncryptionKey(p: Primitives, random: bytes): string
    requires |random| == 32
  {
    p.hex(random)
  }

  /** `encrypt(data, key)`; `iv` and `salt` are the two fresh `randomBytes` draws. */
  function Encrypt(p: Primitives, data: Json, key: string, iv: bytes, salt: bytes): string
    requires |iv| == IV_LENGTH && |salt| == SALT_LENGTH
  {
    var sealed := p.seal(ALGORITHM, DeriveKey(p, key, salt), iv, p.stringify(data));
    p.base64Encode(Frame(Envelope(salt, iv, sealed.tag, sealed.ciphertext)))
  }

  /** `decrypt(encryptedData, key)`: a thrown error is `Err`. */
  function Decrypt(p: Primitives, encryptedData: string, key: string): Result<Json> {
    var e := Unframe(p.base64Decode(encryptedData));
    match p.open(ALGORITHM, DeriveKey(p, key, e.salt), e.iv, e.tag, e.ciphertext)
    case None => Err(AUTH_FAILED)
    case Some(plain) =>
      match p.parse(plain)
      case None => Err(BAD_JSON)
      case Some(v) => Ok(v)
  }

  /** The slicing recovers every part of a frame, whatever the ciphertext's length. */
  lemma UnframeFrame(e: Envelope)
    requires |e.salt| == SALT_LENGTH && |e.iv| == IV_LENGTH && |e.tag| == TAG_LENGTH
    ensures Unframe(Frame(e)) == e
  {
    var b := Frame(e);
    assert b[..SALT_LENGTH] == e.salt;
    assert b[SALT_LENGTH..SALT_LENGTH + IV_LENGTH] == e.iv;
    assert b[SALT_LENGTH + IV_LENGTH..HEADER_LENGTH] == e.tag;
    assert b[HEADER_LENGTH..] == e.ciphertext;
  }

  /** A buffer of at least 96 bytes is the frame of its slices, which have the
      framing lengths. */
  lemma FrameUnframe(buffer: bytes)
    requires |buffer| >= HEADER_LENGTH
    ensures var e := Unframe(buffer);
      |e.salt| == SALT_LENGTH && |e.iv| == IV_LENGTH && |e.tag| == TAG_LENGTH &&
      Frame(e) == buffer
  {
    var e := Unframe(buffer);
    assert buffer == buffer[..SALT_LENGTH] + buffer[SALT_LENGTH..SALT_LENGTH + IV_LENGTH]
      + buffer[SALT_LENGTH + IV_LENGTH..HEADER_LENGTH] + buffer[HEADER_LENGTH..];
  }

  /** A buffer shorter than 96 bytes is sliced without complaint into a tag shorter than
      16 bytes and an empty ciphertext. */
  lemma UnframeShort(buffer: bytes)
    requires |buffer| < HEADER_LENGTH
    ensures |Unframe(buffer).tag| < TAG_LENGTH && Unframe(buffer).ciphertext == []
  {
  }

  /** The key `decrypt` derives from an envelope is the key `encrypt` used for it. */
  lemma DecryptDerivesEncryptKey(p: Primitives, data: Json, key: string, iv: bytes, salt: bytes)
    requires Base64RoundTrip(p) && TagLengthOk(p)
    requires |iv| == IV_LENGTH && |salt| == SALT_LENGTH
    ensures Unframe(p.base64Decode(Encrypt(p, data, key, iv, salt))).salt == salt
    ensures DeriveKey(p, key, Unframe(p.base64Decode(Encrypt(p, data, key, iv, salt))).salt) == DeriveKey(p, key, salt)
  {
    var sealed := p.seal(ALGORITHM, DeriveKey(p, key, salt), iv, p.stringify(data));
    UnframeFrame(Envelope(salt, iv, sealed.tag, sealed.ciphertext));
  }

  /** Decrypting with the same key gives back the value that was encrypted, when JSON
      carries that value. */
  lemma DecryptEncrypt(p: Primitives, data: Json, key: string, iv: bytes, salt: bytes)
    requires Sound(p) && JsonCarries(p, data)
    requires |iv| == IV_LENGTH && |salt| == SALT_LENGTH
    ensures Decrypt(p, Encrypt(p, data, key, iv, salt), key) == Ok(data)
  {
    var k := DeriveKey(p, key, salt);
    var sealed := p.seal(ALGORITHM, k, iv, p.stringify(data));
    UnframeFrame(Envelope(salt, iv, sealed.tag, sealed.ciphertext));
  }

  /** A value comes out of `decrypt` only for an authentic envelope: some plaintext seals,
      under the key derived from the envelope's salt and its iv, to exactly the envelope's
      ciphertext and tag, and parses to that value. Otherwise `decrypt` throws. */
  lemma DecryptOnlyAuthentic(p: Primitives, encryptedData: string, key: string, v: Json)
    requires CipherAuthentic(p)
    requires Decrypt(p, encryptedData, key) == Ok(v)
    ensures var e := Unframe(p.base64Decode(encryptedData));
      exists m :: p.seal(ALGORITHM, DeriveKey(p, key, e.salt), e.iv, m) == Sealed(e.ciphertext, e.tag) &&
                  p.parse(m) == Some(v)
  {
    var e := Unframe(p.base64Decode(encryptedData));
    var m := p.open(ALGORITHM, DeriveKey(p, key, e.salt), e.iv, e.tag, e.ciphertext).value;
    assert p.seal(ALGORITHM, DeriveKey(p, key, e.salt), e.iv, m) == Sealed(e.ciphertext, e.tag);
  }

  /** An envelope that decodes to fewer than 96 bytes always ends in a thrown error:
      its truncated tag can never be a tag the cipher produced. */
  lemma ShortEnvelopeFails(p: Primitives, encryptedData: string, key: string)
    requires CipherAuthentic(p) && TagLengthOk(p)
    requires |p.base64Decode(encryptedData)| < HEADER_LENGTH
    ensures Decrypt(p, encryptedData, key).Err?
  {
    var e := Unframe(p.base64Decode(encryptedData));
    UnframeShort(p.base64Decode(encryptedData));
    var k := DeriveKey(p, key, e.salt);
    var o := p.open(ALGORITHM, k, e.iv, e.tag, e.ciphertext);
    assert o.Some? ==> |p.seal(ALGORITHM, k, e.iv, o.value).tag| == TAG_LENGTH;
  }

  /** Two encryptions whose salt or iv draws differ give different envelopes. */
  lemma FreshDrawsDistinctEnvelopes(p: Primitives, data: Json, key: string,
                                    iv1: bytes, salt1: bytes, iv2: bytes, salt2: bytes)
    requires Base64RoundTrip(p) && TagLengthOk(p)
    requires |iv1| == IV_LENGTH && |salt1| == SALT_LENGTH && |iv2| == IV_LENGTH && |salt2| == SALT_LENGTH
    requires iv1 != iv2 || salt1 != salt2
    ensures Encrypt(p, data, key, iv1, salt1) != Encrypt(p, data, key, iv2, salt2)
  {
    var s1 := p.seal(ALGORITHM, DeriveKey(p, key, salt1), iv1, p.stringify(data));
    var s2 := p.seal(ALGORITHM, DeriveKey(p, key, salt2), iv2, p.stringify(data));
    var e1 := Envelope(salt1, iv1, s1.tag, s1.ciphertext);
    var e2 := Envelope(salt2, iv2, s2.tag, s2.ciphertext);
    UnframeFrame(e1);
    UnframeFrame(e2);
    assert Frame(e1) != Frame(e2);
    assert p.base64Decode(p.base64Encode(Frame(e1))) != p.base64Decode(p.base64Encode(Frame(e2)));
  }

  /** A generated key is 64 lower-case hex digits. */
  lemma GeneratedKeyShape(p: Primitives, random: bytes)
    requires HexOk(p) && |random| == 32
    ensures |GenerateEncryptionKey(p, random)| == 64
    ensures forall i :: 0 <= i < 64 ==> GenerateEncryptionKey(p, random)[i] in "0123456789abcdef"
  {
  }

  /** The first position of `v` in `vs`, or `|vs|` when it is absent. */
  function IndexOf(vs: seq<Json>, v: Json): (r: nat)
    ensures r <= |vs|
    ensures r < |vs| ==> vs[r] == v
    ensures r == |vs| <==> v !in vs
  {
    if |vs| == 0 then 0
    else if vs[0] == v then 0
    else 1 + IndexOf(vs[1..], v)
  }

  const ZERO_TAG: bytes := seq(TAG_LENGTH, _ => 0)
  const HEX_DIGITS: string := "0123456789abcdef"

  /** One character per byte, with the byte's code. */
  function CharsOf(b: bytes): (t: string)
    ensures |t| == |b| && forall i :: 0 <= i < |b| ==> t[i] as int == b[i]
  {
    seq(|b|, i requires 0 <= i < |b| => b[i] as char)
  }

  /** The byte of each character's code, modulo 256. */
  function BytesOf(t: string): (b: bytes)
    ensures |b| == |t| && forall i :: 0 <= i < |t| ==> b[i] == t[i] as int % 256
  {
    seq(|t|, i requires 0 <= i < |t| => (t[i] as int % 256) as byte)
  }

  lemma BytesOfCharsOf(b: bytes)
    ensures BytesOf(CharsOf(b)) == b
  {
    assert forall i :: 0 <= i < |b| ==> BytesOf(CharsOf(b))[i] == b[i];
  }

  /** Two lower-case hex digits per byte, high nibble first. */
  function HexOf(b: bytes): (t: string)
    ensures |t| == 2 * |b| && forall i :: 0 <= i < |t| ==> t[i] in HEX_DIGITS
  {
    seq(2 * |b|, i requires 0 <= i < 2 * |b| =>
      HEX_DIGITS[if i % 2 == 0 then b[i / 2] / 16 else b[i / 2] % 16])
  }

  /** Primitives that meet `Sound` and carry every value of `vs` through JSON, with a
      Base64 text as long as its bytes: the assumptions the lemmas above and their callers
      make can all be met at once. The cipher is the identity with a fixed tag, which
      only shows consistency and is of course no cipher. */
  function ExamplePrimitives(vs: seq<Json>): (p: Primitives)
    ensures Sound(p)
    ensures forall i :: 0 <= i < |vs| ==> JsonCarries(p, vs[i])
    ensures forall b :: |p.base64Encode(b)| == |b|
  {
    var p := Primitives(
      (pw: string, salt: bytes, n: nat, len: nat, d: string) => seq(len, _ => 0),
      (alg: string, k: bytes, iv: bytes, m: bytes) => Sealed(m, ZERO_TAG),
      (alg: string, k: bytes, iv: bytes, tag: bytes, ct: bytes) => if tag == ZERO_TAG then Some(ct) else None,
      (v: Json) => seq(IndexOf(vs, v), _ => 0),
      (b: bytes) => if |b| < |vs| then Some(vs[|b|]) else None,
      CharsOf, BytesOf, HexOf);
    assert Base64RoundTrip(p) by {
      forall b: bytes ensures p.base64Decode(p.base64Encode(b)) == b {
        BytesOfCharsOf(b);
      }
    }
    forall i | 0 <= i < |vs| ensures JsonCarries(p, vs[i]) {
      assert |p.stringify(vs[i])| == IndexOf(vs, vs[i]);
    }
    p
  }

  /** With the example primitives every value of `vs` seals to a non-empty envelope that
      decrypts back to it: the premises of `DecryptEncrypt` and of the read-back lemmas
      built on it are met. */
  lemma ExampleRoundTrip(vs: seq<Json>, i: nat, key: string, iv: bytes, salt: bytes)
    requires i < |vs| && |iv| == IV_LENGTH && |salt| == SALT_LENGTH
    ensures var p := ExamplePrimitives(vs);
      Encrypt(p, vs[i], key, iv, salt) != "" && Decrypt(p, Encrypt(p, vs[i], key, iv, salt), key) == Ok(vs[i])
  {
    var p := ExamplePrimitives(vs);
    DecryptEncrypt(p, vs[i], key, iv, salt);
    var sealed := p.seal(ALGORITHM, DeriveKey(p, key, salt), iv, p.stringify(vs[i]));
    assert |Frame(Envelope(salt, iv, sealed.tag, sealed.ciphertext))| >= SALT_LENGTH;
  }
}
