/**
 Bearer tokens: minting, the reader of the Authorization header, and verification.

 A token is `sk_` and the base-58 text of 64 bytes: the session id in 32 bytes and
 a secret hashed from the node's key, the id and the user. The hash is an
 arbitrary function, so every conclusion about it names the collision.
 */
module Bearer {
  import opened Prelude
  import opened Positional
  import opened Encoding
  import opened Base58
  import opened SessionIds

  /** An Ethereum address. */
  type Address = a: Bytes | |a| == 20 witness seq(20, i => 0)

  type Hash = Bytes -> Bytes32

  /** What is hashed: fixed widths only, so its parts can be read off. */
  function SecretInput(edSecret: Bytes32, sessionId: u64, user: Address): Bytes {
    Ascii("sparkl-sk-v1") + edSecret + ToBytes(sessionId, 8) + user
  }

  function DeriveBearerSecret(hash: Hash, edSecret: Bytes32, sessionId: u64, user: Address): Bytes32 {
    hash(SecretInput(edSecret, sessionId, user))
  }

  /** The 64 bytes of a token. */
  function Payload(sessionId: u64, secret: Bytes32): (p: Bytes)
    ensures |p| == 64
  {
    Zeros(24) + ToBytes(sessionId, 8) + secret
  }

  function SkBearer(hash: Hash, edSecret: Bytes32, sessionId: u64, user: Address): string {
    "sk_" + EncodeBase58(Payload(sessionId, DeriveBearerSecret(hash, edSecret, sessionId, user)))
  }

  /** `copy_from_slice` into a part of an array. */
  method CopyFromSlice(a: array<byte>, start: nat, source: Bytes)
    requires start + |source| <= a.Length
    modifies a
    ensures a[..] == old(a[..start]) + source + old(a[start + |source|..])
  {
    for i := 0 to |source|
      invariant a[..start] == old(a[..start]) && a[start..start + i] == source[..i]
      invariant a[start + i..] == old(a[start + i..])
    {
      a[start + i] := source[i];
    }
    assert a[..] == a[..start] + a[start..start + |source|] + a[start + |source|..];
  }

  /** Mints a token; its bytes are put together in place. */
  method MintSkBearer(hash: Hash, edSecret: Bytes32, sessionId: u64, user: Address) returns (token: string)
    ensures token == SkBearer(hash, edSecret, sessionId, user)
  {
    hide EncodeBase58, DeriveBearerSecret;
    var secret := DeriveBearerSecret(hash, edSecret, sessionId, user);
    var sessionBytes := new byte[32](i => 0);
    CopyFromSlice(sessionBytes, 24, ToBytes(sessionId, 8));
    var payload := new byte[64](i => 0);
    CopyFromSlice(payload, 0, sessionBytes[..]);
    CopyFromSlice(payload, 32, secret);
    assert payload[..] == Payload(sessionId, secret);
    token := "sk_" + EncodeBase58(payload[..]);
  }

  /** The id in the 64 bytes of a token, if its upper 24 bytes are zero. */
  function PayloadId(bytes: Bytes): Result<u64>
    requires |bytes| == 64
  {
    if bytes[..24] != Zeros(24) then Err("id range")
    else
      EightBytes(bytes);
      Ok(FromBytes(bytes[24..32]))
  }

  lemma EightBytes(b: Bytes)
    requires |b| == 64
    ensures FromBytes(b[24..32]) < U64_LIMIT
  {
    Widths();
    ValueBounds(b[24..32], 256);
  }

  /** `parse_bearer_session`: the id of the session, and the token when it is an `sk_` one. */
  function ParseBearerSession(isSpace: char -> bool, header: Option<string>): Result<(u64, Option<string>)> {
    match header
    case None => Err("missing header")
    case Some(authz) =>
      var stripped := if StripPrefix("Bearer ", authz).Some? then StripPrefix("Bearer ", authz)
                      else StripPrefix("bearer ", authz);
      if stripped.None? then Err("not a bearer")
      else
        var token := Trim(isSpace, stripped.value);
        if token == "" then Err("empty token")
        else if "sk_" <= token then
          var bytes := DecodeBase58(token[3..]);
          if bytes.None? then Err("base58")
          else if |bytes.value| != 64 then Err("length")
          else (match PayloadId(bytes.value)
                case Ok(id) => Ok((id, Some(token)))
                case Err(e) => Err(e))
        else (match FromStrRadix(token, 10)
              case Ok(id) => Ok((id, None))
              case Err(_) => Err("not numeric"))
  }

  /** `verify_sk_bearer`. */
  function VerifySkBearer(hash: Hash, edSecret: Bytes32, token: string, sessionId: u64, user: Address): Result<()> {
    var raw := StripPrefix("sk_", token);
    if raw.None? then Err("prefix")
    else
      var bytes := DecodeBase58(raw.value);
      if bytes.None? then Err("base58")
      else if |bytes.value| != 64 then Err("length")
      else (match PayloadId(bytes.value)
            case Err(e) => Err(e)
            case Ok(id) =>
              if id != sessionId then Err("id mismatch")
              else if bytes.value[32..] != DeriveBearerSecret(hash, edSecret, sessionId, user) then Err("secret")
              else Ok(()))
  }

  // ---- Properties ------------------------------------------------------------------------------

  lemma PayloadParts(sessionId: u64, secret: Bytes32)
    ensures PayloadId(Payload(sessionId, secret)) == Ok(sessionId)
    ensures Payload(sessionId, secret)[32..] == secret
  {
    var p := Payload(sessionId, secret);
    assert p[..24] == Zeros(24) && p[24..32] == ToBytes(sessionId, 8);
    Widths();
    RoundTrip(sessionId, 8);
  }

  /** A payload is determined by its id and its secret. */
  lemma PayloadUnique(b: Bytes, sessionId: u64, secret: Bytes32)
    requires |b| == 64 && PayloadId(b) == Ok(sessionId) && b[32..] == secret
    ensures b == Payload(sessionId, secret)
  {
    RoundTripBack(b[24..32]);
    assert b == b[..24] + b[24..32] + b[32..];
  }

  /** Verification accepts exactly the minted token: no other text passes for it. */
  lemma AcceptsExactlyMinted(hash: Hash, edSecret: Bytes32, token: string, sessionId: u64, user: Address)
    ensures VerifySkBearer(hash, edSecret, token, sessionId, user).Ok?
       <==> token == SkBearer(hash, edSecret, sessionId, user)
  {
    hide EncodeBase58, DecodeBase58, PayloadId;
    var secret := DeriveBearerSecret(hash, edSecret, sessionId, user);
    var payload := Payload(sessionId, secret);
    if token == SkBearer(hash, edSecret, sessionId, user) {
      assert token[3..] == EncodeBase58(payload);
      DecodeEncoded58(payload);
      PayloadParts(sessionId, secret);
    }
    if VerifySkBearer(hash, edSecret, token, sessionId, user).Ok? {
      var raw := token[3..];
      PayloadUnique(DecodeBase58(raw).value, sessionId, secret);
      EncodeDecoded58(raw);
      assert token == "sk_" + raw;
    }
  }

  lemma TokenTrims(isSpace: char -> bool, token: string)
    requires SaneSpace(isSpace) && "sk_" <= token && AllBase58(token[3..])
    ensures Trim(isSpace, token) == token
  {
    assert token[|token| - 1] == if |token| > 3 then token[3..][|token| - 4] else '_';
    TrimNothing(isSpace, token);
  }

  /** The reader of the header recovers id and token from a minted one, and from any that verifies. */
  lemma ReaderRecovers(isSpace: char -> bool, hash: Hash, edSecret: Bytes32, sessionId: u64, user: Address,
                       scheme: string)
    requires SaneSpace(isSpace) && (scheme == "Bearer " || scheme == "bearer ")
    ensures var token := SkBearer(hash, edSecret, sessionId, user);
            ParseBearerSession(isSpace, Some(scheme + token)) == Ok((sessionId, Some(token)))
  {
    hide EncodeBase58, DecodeBase58, PayloadId, SaneSpace, Trim;
    var payload := Payload(sessionId, DeriveBearerSecret(hash, edSecret, sessionId, user));
    var token := SkBearer(hash, edSecret, sessionId, user);
    assert token[3..] == EncodeBase58(payload);
    assert (scheme + token)[7..] == token;
    TokenTrims(isSpace, token);
    DecodeEncoded58(payload);
    PayloadParts(sessionId, DeriveBearerSecret(hash, edSecret, sessionId, user));
  }

  /** The header may also carry a plain session id, in decimal; then there is no token. */
  lemma ReaderReadsId(isSpace: char -> bool, zeros: nat, n: nat, scheme: string)
    requires SaneSpace(isSpace) && (scheme == "Bearer " || scheme == "bearer ")
    ensures var r := ParseBearerSession(isSpace, Some(scheme + seq(zeros, i => '0') + DecimalText(n)));
            if n < U64_LIMIT then r == Ok((n, None)) else r.Err?
  {
    hide DecodeBase58, PayloadId, SaneSpace, Trim, FromStrRadix, DecimalText, DecimalNumber;
    var text := seq(zeros, i => '0') + DecimalText(n);
    assert scheme + seq(zeros, i => '0') + DecimalText(n) == scheme + text;
    assert (scheme + text)[7..] == text;
    NumberOfText(zeros, n);
    DecimalRadix(text);
    DecimalTrims(isSpace, text);
  }

  /** A token verifies for no other session. */
  lemma BoundToSession(hash: Hash, edSecret: Bytes32, sessionId: u64, user: Address, otherId: u64, otherUser: Address)
    requires otherId != sessionId
    ensures VerifySkBearer(hash, edSecret, SkBearer(hash, edSecret, sessionId, user), otherId, otherUser).Err?
  {
    hide EncodeBase58, DecodeBase58, PayloadId;
    var payload := Payload(sessionId, DeriveBearerSecret(hash, edSecret, sessionId, user));
    assert SkBearer(hash, edSecret, sessionId, user)[3..] == EncodeBase58(payload);
    DecodeEncoded58(payload);
    PayloadParts(sessionId, DeriveBearerSecret(hash, edSecret, sessionId, user));
  }

  /** What is hashed: the label, the node's secret, the session id in 8 bytes, and the 20 bytes of the user. */
  lemma SecretInputParts(edSecret: Bytes32, sessionId: u64, user: Address)
    ensures var x := SecretInput(edSecret, sessionId, user);
            && |x| == 72 && x[..12] == Ascii("sparkl-sk-v1") && x[12..44] == edSecret
            && FromBytes(x[44..52]) == sessionId && x[52..] == user && x[|x| - 20..] == user
  {
    var x := SecretInput(edSecret, sessionId, user);
    assert x[44..52] == ToBytes(sessionId, 8);
    Widths();
    RoundTrip(sessionId, 8);
  }

  /** A token that verifies for another user, or under another node's key, exhibits a collision of the hash function. */
  lemma BoundToUser(hash: Hash, edSecret: Bytes32, sessionId: u64, user: Address,
                    otherSecret: Bytes32, otherUser: Address)
    requires otherUser != user || otherSecret != edSecret
    requires VerifySkBearer(hash, otherSecret, SkBearer(hash, edSecret, sessionId, user), sessionId, otherUser).Ok?
    ensures Collision(hash, SecretInput(edSecret, sessionId, user), SecretInput(otherSecret, sessionId, otherUser))
  {
    hide EncodeBase58, DecodeBase58, PayloadId;
    var payload := Payload(sessionId, DeriveBearerSecret(hash, edSecret, sessionId, user));
    assert SkBearer(hash, edSecret, sessionId, user)[3..] == EncodeBase58(payload);
    DecodeEncoded58(payload);
    PayloadParts(sessionId, DeriveBearerSecret(hash, edSecret, sessionId, user));
    SecretInputParts(edSecret, sessionId, user);
    SecretInputParts(otherSecret, sessionId, otherUser);
  }
}
