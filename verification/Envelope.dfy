/**
 * The ciphertext layouts of crypto.ts. AES-256-GCM is a pair of functions of which nothing is
 * assumed but that opening inverts sealing and that tags have sixteen bytes.
 */
module Envelope {
  import opened Wrappers
  import opened Base64

  const GCM_IV_LENGTH: nat := 12
  const GCM_AUTH_TAG_LENGTH: nat := 16
  const MAX_UINT16: nat := 65535

  /** Buffer.subarray: bounds beyond the end are clamped. */
  function Subarray(b: Bytes, from: nat, to: nat): Bytes
    requires from <= to
  {
    if to <= |b| then b[from..to] else if from <= |b| then b[from..] else []
  }

  function WriteUInt16BE(n: nat): Option<Bytes> {
    if n > MAX_UINT16 then None else Some([n / 256, n % 256])
  }

  function ReadUInt16BE(b: Bytes): Option<nat> {
    if |b| < 2 then None else Some(b[0] as int * 256 + b[1] as int)
  }

  /** A number survives the two-byte prefix, and the prefix survives being read. */
  lemma UInt16RoundTrip(n: nat, rest: Bytes, b: Bytes)
    ensures WriteUInt16BE(n).Some? <==> n <= MAX_UINT16
    ensures n <= MAX_UINT16 ==> |WriteUInt16BE(n).value| == 2 && ReadUInt16BE(WriteUInt16BE(n).value + rest) == Some(n)
    ensures |b| >= 2 ==> WriteUInt16BE(ReadUInt16BE(b).value) == Some(b[..2])
  {
    if |b| >= 2 {
      var value := b[0] as int * 256 + b[1] as int;
      assert value / 256 == b[0] as int && value % 256 == b[1] as int;
      assert b[..2] == [b[0], b[1]];
    }
  }

  /** The version prefix of an envelope's bytes, and the body behind it. */
  function SplitVersion(raw: Bytes): Option<(nat, Bytes)> {
    match ReadUInt16BE(raw)
    case None => None
    case Some(version) => Some((version, raw[2..]))
  }

  lemma SplitPrefixed(version: nat, body: Bytes)
    requires version <= MAX_UINT16
    ensures SplitVersion(WriteUInt16BE(version).value + body) == Some((version, body))
  {
    UInt16RoundTrip(version, body, []);
    assert (WriteUInt16BE(version).value + body)[2..] == body;
  }

  lemma SplitLosesNothing(raw: Bytes)
    ensures SplitVersion(raw).None? <==> |raw| < 2
    ensures SplitVersion(raw).Some? ==>
              var (version, body) := SplitVersion(raw).value;
              WriteUInt16BE(version).Some? && WriteUInt16BE(version).value + body == raw
  {
    UInt16RoundTrip(0, [], raw);
    if |raw| >= 2 {
      assert raw == raw[..2] + raw[2..];
    }
  }

  /** The AEAD: `seal(key, iv, plaintext)` is (tag, ciphertext); `open` is None where final() throws. */
  datatype Aead = Aead(
    seal: (Bytes, Bytes, Bytes) -> (Bytes, Bytes),
    open: (Bytes, Bytes, Bytes, Bytes) -> Option<Bytes>)
  {
    ghost predicate Sound() {
      forall key: Bytes, iv: Bytes, plain: Bytes {:trigger seal(key, iv, plain)} :: |iv| == GCM_IV_LENGTH ==>
        |seal(key, iv, plain).0| == GCM_AUTH_TAG_LENGTH
        && open(key, iv, seal(key, iv, plain).0, seal(key, iv, plain).1) == Some(plain)
    }

    /** iv || tag || ciphertext, in base64. */
    function EncryptWithKey(key: Bytes, iv: Bytes, plain: Bytes): string {
      var (tag, ciphertext) := seal(key, iv, plain);
      Encode(iv + tag + ciphertext)
    }

    function DecryptWithKey(key: Bytes, encoded: string): Option<Bytes> {
      var raw := Decode(encoded);
      var split := GCM_IV_LENGTH + GCM_AUTH_TAG_LENGTH;
      open(key, Subarray(raw, 0, GCM_IV_LENGTH), Subarray(raw, GCM_IV_LENGTH, split),
           if split <= |raw| then raw[split..] else [])
    }

    /** version || body, in base64; None where writeUInt16BE throws. */
    function EncryptWithDek(dek: Bytes, version: nat, plain: Bytes, iv: Bytes): Option<string> {
      match WriteUInt16BE(version)
      case None => None
      case Some(prefix) => Some(Encode(prefix + Decode(EncryptWithKey(dek, iv, plain))))
    }

    function DecryptWithDek(dek: Bytes, encoded: string): Option<Bytes> {
      match ParseEnvelope(encoded)
      case None => None
      case Some((_, body)) => DecryptWithKey(dek, body)
    }

    /** What is written: the given iv, then the tag and the ciphertext of sealing with it under the given key. */
    lemma KeyLayout(key: Bytes, iv: Bytes, plain: Bytes)
      ensures Decode(EncryptWithKey(key, iv, plain)) == iv + seal(key, iv, plain).0 + seal(key, iv, plain).1
    {
      DecodeEncode(iv + seal(key, iv, plain).0 + seal(key, iv, plain).1);
    }

    /** What is read: twelve bytes of iv, sixteen of tag, and the ciphertext; missing bytes are just missing. */
    lemma KeyReads(key: Bytes, encoded: string)
      ensures var raw := Decode(encoded);
              DecryptWithKey(key, encoded) ==
                if |raw| >= 28 then open(key, raw[..12], raw[12..28], raw[28..])
                else if |raw| >= 12 then open(key, raw[..12], raw[12..], [])
                else open(key, raw, [], [])
    {
      var raw := Decode(encoded);
      assert |raw| >= 12 ==> raw[0..12] == raw[..12];
      assert |raw| < 12 ==> raw[0..] == raw;
    }

    /** The bytes of an email: two of version, high one first, then iv, tag and ciphertext under the DEK. */
    lemma DekLayout(dek: Bytes, version: nat, plain: Bytes, iv: Bytes)
      requires version <= 65535
      ensures EncryptWithDek(dek, version, plain, iv).Some?
      ensures Decode(EncryptWithDek(dek, version, plain, iv).value)
           == [version / 256, version % 256] + (iv + seal(dek, iv, plain).0 + seal(dek, iv, plain).1)
    {
      KeyLayout(dek, iv, plain);
      DecodeEncode([version / 256, version % 256] + Decode(EncryptWithKey(dek, iv, plain)));
    }

    /** Decrypting inverts encrypting under the same key. */
    lemma KeyRoundTrip(key: Bytes, iv: Bytes, plain: Bytes)
      requires Sound() && |iv| == GCM_IV_LENGTH
      ensures DecryptWithKey(key, EncryptWithKey(key, iv, plain)) == Some(plain)
    {
      var (tag, ciphertext) := seal(key, iv, plain);
      var raw := iv + tag + ciphertext;
      DecodeEncode(raw);
      assert raw[0..12] == iv && raw[12..28] == tag && raw[28..] == ciphertext;
    }

    /**
     * For every key, version and plaintext: encryption fails exactly for versions beyond 65535;
     * otherwise parsing returns the version and decrypting returns the plaintext.
     */
    lemma DekRoundTrip(dek: Bytes, version: nat, plain: Bytes, iv: Bytes)
      requires Sound() && |iv| == GCM_IV_LENGTH
      ensures var encoded := EncryptWithDek(dek, version, plain, iv);
              && (encoded.Some? <==> version <= MAX_UINT16)
              && (encoded.Some? ==>
                    && ParseEnvelope(encoded.value) == Some((version, EncryptWithKey(dek, iv, plain)))
                    && DecryptWithDek(dek, encoded.value) == Some(plain))
    {
      UInt16RoundTrip(version, [], []);
      if version <= MAX_UINT16 {
        var body := Decode(EncryptWithKey(dek, iv, plain));
        var (tag, ciphertext) := seal(dek, iv, plain);
        DecodeEncode(iv + tag + ciphertext);
        DecodeEncode(WriteUInt16BE(version).value + body);
        SplitPrefixed(version, body);
        KeyRoundTrip(dek, iv, plain);
      }
    }
  }

  /** The version and the base64 body of an envelope; None where readUInt16BE throws. */
  function ParseEnvelope(encoded: string): Option<(nat, string)> {
    match SplitVersion(Decode(encoded))
    case None => None
    case Some((version, body)) => Some((version, Encode(body)))
  }

  /** The version an envelope names: its first two bytes, high one first. */
  lemma ParseReads(encoded: string)
    ensures var raw := Decode(encoded);
            && (ParseEnvelope(encoded).None? <==> |raw| < 2)
            && (|raw| >= 2 ==>
                  && ParseEnvelope(encoded).value.0 == raw[0] as int * 256 + raw[1] as int
                  && Decode(ParseEnvelope(encoded).value.1) == raw[2..])
  {
    if |Decode(encoded)| >= 2 {
      DecodeEncode(Decode(encoded)[2..]);
    }
  }

  /** Parsing loses nothing: version and body put together again are the envelope's bytes. */
  lemma ParseLosesNothing(encoded: string)
    ensures ParseEnvelope(encoded).None? <==> |Decode(encoded)| < 2
    ensures ParseEnvelope(encoded).Some? ==>
              var (version, body) := ParseEnvelope(encoded).value;
              var prefix := WriteUInt16BE(version);
              prefix.Some? && prefix.value + Decode(body) == Decode(encoded)
  {
    SplitLosesNothing(Decode(encoded));
    if |Decode(encoded)| >= 2 {
      DecodeEncode(SplitVersion(Decode(encoded)).value.1);
    }
  }
}
