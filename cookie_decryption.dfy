/**
 * Decryption of one Chromium cookie value (`decryptCookieValue` and `aesDecrypt` in
 * ClaudeUsageApp/BrowserCookieReader.swift).
 *
 * A stored value is a version-tagged envelope: three bytes `v10` or `v11`, then a payload
 * encrypted with AES-128 in CBC mode (FIPS 197; NIST SP 800-38A, section 6.2) with PKCS #7
 * padding (RFC 5652, section 6.3).  Recent browsers put a 16-byte header and a 16-byte IV
 * before the ciphertext; older ones encrypt the whole payload under an IV of sixteen spaces.
 * The cipher, the key derivation and UTF-8 decoding are CommonCrypto and Foundation calls:
 * they are fields of `Primitives`, about which nothing is assumed.
 */
module CookieDecryption {
  import opened Base

  /** A 16-byte AES-128 key: the buffer `Data(count: 16)` the key derivation fills. */
  type AesKey = k: seq<byte> | |k| == 16
    witness [0, 0, 0, 0, 0, 0, 0, 0, 0, 0, 0, 0, 0, 0, 0, 0]

  /** What `CCCrypt` reports: its status and the `decryptedLength` bytes it wrote. */
  datatype CryptOutcome = CryptOutcome(status: int, output: seq<byte>)

  /** What `CCKeyDerivationPBKDF` reports: its status and the key buffer. */
  datatype KdfOutcome = KdfOutcome(status: int, key: AesKey)

  /** The foreign calls the reader makes, as uninterpreted total functions. */
  datatype Primitives = Primitives(
    /** AES-128-CBC decryption with PKCS #7 padding: key, IV, ciphertext. */
    cbcDecrypt: (AesKey, seq<byte>, seq<byte>) -> CryptOutcome,
    /** PBKDF2 with HMAC-SHA1 (RFC 8018, section 5.2): password, salt, iterations, key length. */
    pbkdf2: (string, string, nat, nat) -> KdfOutcome,
    /** `String(data:encoding: .utf8)`: None for bytes that are not valid UTF-8. */
    utf8: seq<byte> -> Option<string>)

  /** `kCCSuccess`. */
  const CryptSuccess: int := 0

  /** The version tags, `v10` and `v11` in ASCII. */
  const V10: seq<byte> := [0x76, 0x31, 0x30]
  const V11: seq<byte> := [0x76, 0x31, 0x31]
  const TagLength: nat := 3

  /** The legacy IV: sixteen bytes of 0x20, the space character. */
  const LegacyIv: seq<byte> := [0x20, 0x20, 0x20, 0x20, 0x20, 0x20, 0x20, 0x20,
                                0x20, 0x20, 0x20, 0x20, 0x20, 0x20, 0x20, 0x20]

  /** The modern layout: a header and an IV of 16 bytes each, then the ciphertext. */
  const HeaderLength: nat := 16
  const IvLength: nat := 16
  /** The modern layout is tried only for payloads longer than this. */
  const ModernThreshold: nat := 48

  /**
   * `aesDecrypt`: a text only when the cipher reports success, wrote at least one byte,
   * and those bytes are valid UTF-8.
   */
  function AesDecrypt(encrypted: seq<byte>, key: AesKey, iv: seq<byte>, p: Primitives): (r: Option<string>)
    ensures r.Some? <==>
      var out := p.cbcDecrypt(key, iv, encrypted);
      out.status == CryptSuccess && |out.output| > 0 && p.utf8(out.output).Some?
    ensures r.Some? ==> r == p.utf8(p.cbcDecrypt(key, iv, encrypted).output)
  {
    var out := p.cbcDecrypt(key, iv, encrypted);
    if out.status == CryptSuccess && |out.output| > 0 then p.utf8(out.output) else None
  }

  /** The stored bytes, read once at the top of the decoder. */
  datatype Envelope =
    | TooShort(data: seq<byte>)                     // three bytes or fewer
    | Versioned(tag: seq<byte>, payload: seq<byte>) // `v10` or `v11`, then the payload
    | Unversioned(data: seq<byte>)                  // any other prefix: stored as text

  function EnvelopeBytes(e: Envelope): seq<byte> {
    match e
    case TooShort(d) => d
    case Versioned(t, payload) => t + payload
    case Unversioned(d) => d
  }

  function ParseEnvelope(data: seq<byte>): (e: Envelope)
    ensures EnvelopeBytes(e) == data
    ensures e.TooShort? <==> |data| <= TagLength
    ensures e.Versioned? ==> (e.tag == V10 || e.tag == V11) && |e.payload| > 0
  {
    if |data| <= TagLength then TooShort(data)
    else if data[..TagLength] == V10 || data[..TagLength] == V11 then
      assert data == data[..TagLength] + data[TagLength..];
      Versioned(data[..TagLength], data[TagLength..])
    else Unversioned(data)
  }

  /** A tagged envelope is read back as the tag and payload it was written from. */
  lemma EnvelopeOfTaggedPayload(tag: seq<byte>, payload: seq<byte>)
    requires tag == V10 || tag == V11
    requires |payload| > 0
    ensures ParseEnvelope(tag + payload) == Versioned(tag, payload)
  {
    assert (tag + payload)[..TagLength] == tag && (tag + payload)[TagLength..] == payload;
  }

  /** The modern layout of a payload: header, IV, ciphertext. */
  datatype ModernSplit = ModernSplit(header: seq<byte>, iv: seq<byte>, ciphertext: seq<byte>)

  function ModernLayout(payload: seq<byte>): (r: Option<ModernSplit>)
    ensures r.Some? <==> |payload| > ModernThreshold
    ensures r.Some? ==>
      && r.value.header + r.value.iv + r.value.ciphertext == payload
      && |r.value.header| == HeaderLength && |r.value.iv| == IvLength
      && |r.value.ciphertext| > ModernThreshold - HeaderLength - IvLength
  {
    if |payload| > ModernThreshold then
      var split := ModernSplit(payload[..HeaderLength], payload[HeaderLength..HeaderLength + IvLength],
                               payload[HeaderLength + IvLength..]);
      assert split.header + split.iv + split.ciphertext == payload;
      Some(split)
    else None
  }

  /** The layout a browser writes is the layout the decoder reads. */
  lemma ModernLayoutOfParts(header: seq<byte>, iv: seq<byte>, ciphertext: seq<byte>)
    requires |header| == HeaderLength && |iv| == IvLength
    requires |ciphertext| > ModernThreshold - HeaderLength - IvLength
    ensures ModernLayout(header + iv + ciphertext) == Some(ModernSplit(header, iv, ciphertext))
  {
    var payload := header + iv + ciphertext;
    assert payload[..HeaderLength] == header;
    assert payload[HeaderLength..HeaderLength + IvLength] == iv;
    assert payload[HeaderLength + IvLength..] == ciphertext;
  }

  /** The first attempt on a versioned payload: the modern layout, when the payload is long enough. */
  function ModernAttempt(payload: seq<byte>, key: AesKey, p: Primitives): Option<string> {
    match ModernLayout(payload)
    case Some(split) => AesDecrypt(split.ciphertext, key, split.iv, p)
    case None => None
  }

  /** The second attempt: the whole payload is ciphertext under the IV of spaces. */
  function LegacyAttempt(payload: seq<byte>, key: AesKey, p: Primitives): Option<string> {
    AesDecrypt(payload, key, LegacyIv, p)
  }

  /** The versioned branch: the modern attempt, and the legacy one when that gives nothing. */
  function DecryptPayload(payload: seq<byte>, key: AesKey, p: Primitives): (r: Option<string>)
    ensures ModernAttempt(payload, key, p).Some? ==> r == ModernAttempt(payload, key, p)
    ensures ModernAttempt(payload, key, p).None? ==> r == LegacyAttempt(payload, key, p)
    ensures |payload| <= ModernThreshold ==> r == LegacyAttempt(payload, key, p)
  {
    var modern := ModernAttempt(payload, key, p);
    if modern.Some? then modern else LegacyAttempt(payload, key, p)
  }

  /**
   * `decryptCookieValue`: nothing for three bytes or fewer, the decrypted payload for a
   * `v10` or `v11` envelope, and the bytes read as UTF-8 otherwise.
   */
  function DecryptCookieValue(data: seq<byte>, key: AesKey, p: Primitives): (r: Option<string>)
    ensures |data| <= TagLength ==> r.None?
    ensures |data| > TagLength && data[..TagLength] != V10 && data[..TagLength] != V11 ==> r == p.utf8(data)
    ensures |data| > TagLength && (data[..TagLength] == V10 || data[..TagLength] == V11) ==>
      r == DecryptPayload(data[TagLength..], key, p)
  {
    match ParseEnvelope(data)
    case TooShort(_) => None
    case Versioned(_, payload) => DecryptPayload(payload, key, p)
    case Unversioned(d) => p.utf8(d)
  }

  /** `v10` and `v11` are decrypted the same way. */
  lemma VersionTagsAgree(payload: seq<byte>, key: AesKey, p: Primitives)
    ensures DecryptCookieValue(V10 + payload, key, p) == DecryptCookieValue(V11 + payload, key, p)
  {
    assert (V10 + payload)[..TagLength] == V10 && (V10 + payload)[TagLength..] == payload;
    assert (V11 + payload)[..TagLength] == V11 && (V11 + payload)[TagLength..] == payload;
  }

  /**
   * A value a browser stored in the modern layout comes back: when the cipher turns the
   * ciphertext under that IV into UTF-8 text, the decoder returns that text.
   */
  lemma ModernRoundTrip(tag: seq<byte>, header: seq<byte>, iv: seq<byte>, ciphertext: seq<byte>,
                        key: AesKey, plaintext: seq<byte>, text: string, p: Primitives)
    requires tag == V10 || tag == V11
    requires |header| == HeaderLength && |iv| == IvLength
    requires |ciphertext| > ModernThreshold - HeaderLength - IvLength
    requires p.cbcDecrypt(key, iv, ciphertext) == CryptOutcome(CryptSuccess, plaintext)
    requires |plaintext| > 0 && p.utf8(plaintext) == Some(text)
    ensures DecryptCookieValue(tag + header + iv + ciphertext, key, p) == Some(text)
  {
    var payload := header + iv + ciphertext;
    var data := tag + header + iv + ciphertext;
    assert data == tag + payload;
    assert data[..TagLength] == tag && data[TagLength..] == payload;
    ModernLayoutOfParts(header, iv, ciphertext);
  }

  /**
   * A value stored in the legacy layout comes back whenever the modern attempt yields
   * nothing (always the case for payloads of 48 bytes or fewer).
   */
  lemma LegacyRoundTrip(tag: seq<byte>, payload: seq<byte>, key: AesKey, plaintext: seq<byte>,
                        text: string, p: Primitives)
    requires tag == V10 || tag == V11
    requires |payload| > 0
    requires ModernAttempt(payload, key, p).None?
    requires p.cbcDecrypt(key, LegacyIv, payload) == CryptOutcome(CryptSuccess, plaintext)
    requires |plaintext| > 0 && p.utf8(plaintext) == Some(text)
    ensures DecryptCookieValue(tag + payload, key, p) == Some(text)
  {
    assert (tag + payload)[..TagLength] == tag && (tag + payload)[TagLength..] == payload;
  }
}
