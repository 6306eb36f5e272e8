/** vault.ts: the encrypted-column envelope, its printer and parser, and the choice of key by mode. */
module Vault {
  import opened Common

  type Byte = b: int | 0 <= b < 256 witness 0

  type Bytes = seq<Byte>

  const VERSION_LOCAL: Byte := 1
  const VERSION_VAULT: Byte := 2

  datatype VaultError = BadLocalKey | TransitFailed | HeaderOverflow | TooShort | UnknownVersion | BadKeyLength | BadTag | NoToken

  // ---- Configuration ----

  /** The environment variables read; None is an unset variable. */
  datatype Env = Env(vaultEnabled: Option<string>, token: Option<string>, transitKeyName: Option<string>,
                     transitColumnKey: Option<string>, localKey: Option<string>)

  function VaultEnabled(env: Env): bool { env.vaultEnabled == Some("true") }

  /** JavaScript's `v || d` on strings: unset and empty both fall back. */
  function Or(v: Option<string>, d: string): string { if v.Some? && v.value != "" then v.value else d }

  function TransitKeyName(env: Env): string { Or(env.transitKeyName, "tru-booker-data-key") }

  function TransitColumnKey(env: Env): string { Or(env.transitColumnKey, TransitKeyName(env)) }

  function HexDigit(c: char): int {
    if '0' <= c <= '9' then (c - '0') as int
    else if 'a' <= c <= 'f' then (c - 'a') as int + 10
    else if 'A' <= c <= 'F' then (c - 'A') as int + 10
    else -1
  }

  /** Buffer.from(hex, 'hex'): decodes pairs and stops at the first that is not hexadecimal. */
  function FromHex(hex: string): (r: Bytes)
    ensures |r| <= |hex| / 2
    ensures (forall i :: 0 <= i < |hex| ==> HexDigit(hex[i]) >= 0) ==> |r| == |hex| / 2
  {
    if |hex| < 2 || HexDigit(hex[0]) < 0 || HexDigit(hex[1]) < 0 then []
    else [HexDigit(hex[0]) * 16 + HexDigit(hex[1])] + FromHex(hex[2..])
  }

  function LocalKey(env: Env): Result<Bytes, VaultError> {
    if env.localKey.Some? && |env.localKey.value| == 64 then Success(FromHex(env.localKey.value)) else Failure(BadLocalKey)
  }

  // ---- Framing ----

  datatype Parts = Parts(version: Byte, wrapped: Bytes, iv: Bytes, tag: Bytes, ciphertext: Bytes)

  /** writeUInt16LE refuses a length over 65535. */
  function Print(p: Parts): Result<Bytes, VaultError> {
    if |p.wrapped| > 0xFFFF then Failure(HeaderOverflow)
    else Success([p.version, |p.wrapped| % 256, |p.wrapped| / 256] + p.wrapped + p.iv + p.tag + p.ciphertext)
  }

  /** Buffer.subarray: both bounds are clamped to the buffer. */
  function Subarray(b: Bytes, from: nat, to: nat): Bytes {
    var lo := if from <= |b| then from else |b|;
    var hi := if to <= |b| then to else |b|;
    if lo <= hi then b[lo..hi] else []
  }

  /** readUInt16LE. */
  function Length(lo: Byte, hi: Byte): nat { (lo as int) + 256 * (hi as int) }

  /** The slices vaultDecrypt takes; reading the header needs three bytes. */
  function Parse(b: Bytes): Result<Parts, VaultError> {
    if |b| < 3 then Failure(TooShort)
    else
      var n := Length(b[1], b[2]);
      Success(Parts(b[0], Subarray(b, 3, 3 + n), Subarray(b, 3 + n, 3 + n + 16),
                    Subarray(b, 3 + n + 16, 3 + n + 32), Subarray(b, 3 + n + 32, |b|)))
  }

  /** Parsing what was printed returns the same five parts. */
  lemma ParsePrint(p: Parts)
    requires |p.wrapped| <= 0xFFFF && |p.iv| == 16 && |p.tag| == 16
    ensures Parse(Print(p).value) == Success(p)
  {
    var b := Print(p).value;
    var n := |p.wrapped|;
    assert Length(b[1], b[2]) == n;
    assert |b| == 3 + n + 32 + |p.ciphertext| && b[0] == p.version;
    assert b[3..3 + n] == p.wrapped;
    assert b[3 + n..3 + n + 16] == p.iv;
    assert b[3 + n + 16..3 + n + 32] == p.tag;
    assert b[3 + n + 32..|b|] == p.ciphertext;
  }

  /** The other way round: whatever the length field says, the header and the four clamped slices are the buffer. */
  lemma SlicesCoverBuffer(b: Bytes)
    requires |b| >= 3
    ensures var p := Parse(b).value;
            b[..3] + p.wrapped + p.iv + p.tag + p.ciphertext == b
    ensures var p := Parse(b).value;
            |p.iv| == 16 && |p.tag| == 16 <==> |b| >= 3 + Length(b[1], b[2]) + 32
  {
  }

  // ---- The cipher and Vault Transit, kept abstract ----

  /**
   * seal and open are AES-256-GCM encryption and decryption (sections 7.1 and 7.2 of NIST SP 800-38D) under a
   * 32-byte key; unwrap is Vault Transit's decrypt under a named key; utf8 and text convert strings.
   */
  datatype Services = Services(seal: (Bytes, Bytes, Bytes) -> (Bytes, Bytes), open: (Bytes, Bytes, Bytes, Bytes) -> Option<Bytes>,
                               unwrap: (string, string) -> Option<Bytes>, utf8: string -> Bytes, text: Bytes -> string)

  predicate WellFormed(v: Services, s: string) { v.text(v.utf8(s)) == s }

  /** The tag has 16 bytes, and opening with the sealing key and IV gives the plaintext back. */
  ghost predicate Opens(v: Services) {
    forall k, iv, p ::
      var (c, tag) := v.seal(k, iv, p);
      |tag| == 16 && v.open(k, iv, tag, c) == Some(p)
  }

  /** The idealised converse: another key never passes the tag check. */
  ghost predicate Rejects(v: Services) {
    forall k, k', iv, p :: k != k' ==> v.open(k', iv, v.seal(k, iv, p).1, v.seal(k, iv, p).0) == None
  }

  /** A data key as Transit generated it under a key name: that name unwraps it, and no other name does. */
  datatype DataKey = DataKey(plaintext: Bytes, ciphertext: string)

  ghost predicate GeneratedUnder(v: Services, name: string, dk: DataKey) {
    && |dk.plaintext| == 32 && WellFormed(v, dk.ciphertext)
    && v.unwrap(name, dk.ciphertext) == Some(dk.plaintext)
    && forall other :: other != name ==> v.unwrap(other, dk.ciphertext) == None
  }

  // ---- Encrypt and decrypt ----

  function Seal(v: Services, version: Byte, key: Bytes, wrapped: Bytes, iv: Bytes, plaintext: string): Result<Bytes, VaultError> {
    if |key| != 32 then Failure(BadKeyLength)
    else
      var (c, tag) := v.seal(key, iv, v.utf8(plaintext));
      Print(Parts(version, wrapped, iv, tag, c))
  }

  /** `dataKey` is Transit's answer to a data-key request, None when it fails. */
  function Encrypt(v: Services, env: Env, plaintext: string, iv: Bytes, dataKey: Option<DataKey>): Result<Bytes, VaultError> {
    if VaultEnabled(env) then
      if Or(env.token, "") == "" then Failure(NoToken)
      else if dataKey.None? then Failure(TransitFailed)
      else Seal(v, VERSION_VAULT, dataKey.value.plaintext, v.utf8(dataKey.value.ciphertext), iv, plaintext)
    else
      match LocalKey(env)
      case Failure(e) => Failure(e)
      case Success(key) => Seal(v, VERSION_LOCAL, key, key, iv, plaintext)
  }

  function OpeningKey(v: Services, env: Env, version: Byte, wrapped: Bytes): Result<Bytes, VaultError> {
    if version == VERSION_VAULT then
      if Or(env.token, "") == "" then Failure(NoToken)
      else
        match v.unwrap(TransitColumnKey(env), v.text(wrapped))
        case Some(key) => Success(key)
        case None => Failure(TransitFailed)
    else if version == VERSION_LOCAL then
      if VaultEnabled(env) then LocalKey(env) else Success(wrapped)
    else Failure(UnknownVersion)
  }

  function Decrypt(v: Services, env: Env, b: Bytes): Result<string, VaultError> {
    match Parse(b)
    case Failure(e) => Failure(e)
    case Success(p) =>
      match OpeningKey(v, env, p.version, p.wrapped)
      case Failure(e) => Failure(e)
      case Success(key) =>
        if |key| != 32 then Failure(BadKeyLength)
        else
          match v.open(key, p.iv, p.tag, p.ciphertext)
          case Some(plain) => Success(v.text(plain))
          case None => Failure(BadTag)
  }

  /** Opening with the key the buffer was sealed with. */
  lemma OpenSealed(v: Services, env: Env, version: Byte, key: Bytes, wrapped: Bytes, iv: Bytes, plaintext: string)
    requires Opens(v) && WellFormed(v, plaintext) && |iv| == 16 && |wrapped| <= 0xFFFF && |key| == 32
    ensures var b := Seal(v, version, key, wrapped, iv, plaintext);
            && b.Success?
            && (OpeningKey(v, env, version, wrapped) == Success(key) ==> Decrypt(v, env, b.value) == Success(plaintext))
            && (OpeningKey(v, env, version, wrapped).Failure? ==> Decrypt(v, env, b.value).Failure?)
            && (Rejects(v) && OpeningKey(v, env, version, wrapped) != Success(key) ==> Decrypt(v, env, b.value).Failure?)
  {
    var sealed := v.seal(key, iv, v.utf8(plaintext));
    var p := Parts(version, wrapped, iv, sealed.1, sealed.0);
    assert |sealed.1| == 16 && v.open(key, iv, sealed.1, sealed.0) == Some(v.utf8(plaintext));
    ParsePrint(p);
  }

  /**
   * Local mode: whatever VAULT_LOCAL_KEY becomes, a reader still in local mode gets the text back; a reader
   * switched to vault mode gets it back exactly when its VAULT_LOCAL_KEY decodes to the key used.
   */
  lemma LocalRoundTrip(v: Services, writer: Env, reader: Env, plaintext: string, iv: Bytes, dk: Option<DataKey>)
    requires Opens(v) && WellFormed(v, plaintext) && |iv| == 16 && !VaultEnabled(writer)
    requires Encrypt(v, writer, plaintext, iv, dk).Success?
    ensures var b := Encrypt(v, writer, plaintext, iv, dk).value;
            && (!VaultEnabled(reader) || LocalKey(reader) == LocalKey(writer) ==> Decrypt(v, reader, b) == Success(plaintext))
            && (Rejects(v) ==>
                  (Decrypt(v, reader, b) == Success(plaintext) <==> !VaultEnabled(reader) || LocalKey(reader) == LocalKey(writer)))
  {
    var key := LocalKey(writer).value;
    OpenSealed(v, reader, VERSION_LOCAL, key, key, iv, plaintext);
  }

  /**
   * Vault mode: whatever mode the reader is in, the text comes back exactly when the reader has a token and its
   * column key is the key the data key was generated under.
   */
  lemma VaultRoundTrip(v: Services, writer: Env, reader: Env, plaintext: string, iv: Bytes, dk: DataKey)
    requires Opens(v) && WellFormed(v, plaintext) && |iv| == 16 && VaultEnabled(writer)
    requires GeneratedUnder(v, TransitKeyName(writer), dk)
    requires Encrypt(v, writer, plaintext, iv, Some(dk)).Success?
    ensures Decrypt(v, reader, Encrypt(v, writer, plaintext, iv, Some(dk)).value) == Success(plaintext)
            <==> Or(reader.token, "") != "" && TransitColumnKey(reader) == TransitKeyName(writer)
  {
    OpenSealed(v, reader, VERSION_VAULT, dk.plaintext, v.utf8(dk.ciphertext), iv, plaintext);
  }

  /** With one environment in vault mode, that is so exactly when VAULT_TRANSIT_COLUMN_KEY is unset, empty or the data key's name. */
  lemma OwnColumnKey(env: Env)
    ensures TransitColumnKey(env) == TransitKeyName(env)
            <==> env.transitColumnKey.None? || env.transitColumnKey.value in {"", TransitKeyName(env)}
  {
  }

  /** Without variables both names are the default one; a column key that is set is used as it stands. */
  lemma KeyNames(env: Env)
    ensures env.transitKeyName in {None, Some("")} ==> TransitKeyName(env) == "tru-booker-data-key"
    ensures env.transitKeyName !in {None, Some("")} ==> Some(TransitKeyName(env)) == env.transitKeyName
    ensures env.transitColumnKey !in {None, Some("")} ==> Some(TransitColumnKey(env)) == env.transitColumnKey
  {
  }

  /** A printed envelope is refused exactly when the wrapped key does not fit the two length bytes or the key is not 32 bytes. */
  lemma SealFails(v: Services, version: Byte, key: Bytes, wrapped: Bytes, iv: Bytes, plaintext: string)
    ensures Seal(v, version, key, wrapped, iv, plaintext).Failure? <==> |key| != 32 || |wrapped| > 0xFFFF
  {
  }

  // ---- In the source's own form ----

  /** vaultEncrypt: key, wrapped key and version by branch, then a three-byte header written in place. */
  method VaultEncrypt(v: Services, env: Env, plaintext: string, iv: Bytes, dataKey: Option<DataKey>)
    returns (r: Result<Bytes, VaultError>)
    ensures r == Encrypt(v, env, plaintext, iv, dataKey)
  {
    var key: Bytes;
    var wrappedKey: Bytes;
    var version: Byte;
    if VaultEnabled(env) {
      if Or(env.token, "") == "" { return Failure(NoToken); }
      if dataKey.None? { return Failure(TransitFailed); }
      key := dataKey.value.plaintext;
      wrappedKey := v.utf8(dataKey.value.ciphertext);
      version := VERSION_VAULT;
    } else {
      var local := LocalKey(env);
      if local.Failure? { return Failure(local.error); }
      key := local.value;
      wrappedKey := key;
      version := VERSION_LOCAL;
    }
    if |key| != 32 { return Failure(BadKeyLength); }
    var (ciphertext, authTag) := v.seal(key, iv, v.utf8(plaintext));
    var header := new Byte[3](_ => 0);
    header[0] := version;
    if |wrappedKey| > 0xFFFF { return Failure(HeaderOverflow); }
    header[1] := |wrappedKey| % 256;
    header[2] := |wrappedKey| / 256;
    assert header[..] == [version, |wrappedKey| % 256, |wrappedKey| / 256];
    return Success(header[..] + wrappedKey + iv + authTag + ciphertext);
  }

  // ---- The local key's bytes ----

  function HexChar(n: int, upper: bool): char
    requires 0 <= n < 16
  {
    if n < 10 then (n as char) + '0' else if upper then (n - 10) as char + 'A' else (n - 10) as char + 'a'
  }

  /** Two hexadecimal digits a byte, high one first, in either case. */
  function ToHex(b: Bytes, upper: bool): string {
    if b == [] then "" else [HexChar(b[0] / 16, upper), HexChar(b[0] % 16, upper)] + ToHex(b[1..], upper)
  }

  /** Decoding the spelling of any bytes gives those bytes. */
  lemma {:induction false} HexRoundTrip(b: Bytes, upper: bool)
    ensures |ToHex(b, upper)| == 2 * |b| && FromHex(ToHex(b, upper)) == b
  {
    if b != [] {
      HexRoundTrip(b[1..], upper);
      assert ToHex(b, upper)[2..] == ToHex(b[1..], upper);
      assert b == [b[0]] + b[1..];
    }
  }

  /** Decoding stops at the first pair that is not hexadecimal. */
  lemma HexStops(hex: string)
    ensures |hex| >= 2 && (HexDigit(hex[0]) < 0 || HexDigit(hex[1]) < 0) ==> FromHex(hex) == []
    ensures HexDigit('g') < 0 && HexDigit('G') < 0 && HexDigit('/') < 0 && HexDigit(':') < 0 && HexDigit('@') < 0 && HexDigit('`') < 0
  {
  }

  /** The local key is the 32 bytes its 64 digits spell, and any other length is refused. */
  lemma LocalKeyBytes(env: Env, key: Bytes, upper: bool)
    ensures env.localKey == Some(ToHex(key, upper)) && |key| == 32 ==> LocalKey(env) == Success(key)
    ensures env.localKey.None? || |env.localKey.value| != 64 ==> LocalKey(env) == Failure(BadLocalKey)
  {
    HexRoundTrip(key, upper);
  }

  /**
   * The envelope's first byte tells how it was sealed: 2 with the wrapped data key in vault mode, which is exactly when
   * VAULT_ENABLED is "true" and there is a token and a data key; 1 with the local key itself otherwise.
   */
  lemma SealedByMode(v: Services, env: Env, plaintext: string, iv: Bytes, dk: Option<DataKey>)
    requires Encrypt(v, env, plaintext, iv, dk).Success?
    ensures var b := Encrypt(v, env, plaintext, iv, dk).value;
            && |b| >= 3
            && (env.vaultEnabled == Some("true") ==>
                  b[0] == 2 && dk.Some? && env.token.Some? && env.token.value != "" && v.utf8(dk.value.ciphertext) <= b[3..])
            && (env.vaultEnabled != Some("true") ==> b[0] == 1 && LocalKey(env).Success? && LocalKey(env).value <= b[3..])
  {
  }
}
