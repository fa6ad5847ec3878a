/** Identity tokens: `sha256.<hash>.<salt>.<sign method>.<signature>`, fields in base64. */
module Token {
  import opened Prelude
  import opened Text
  import Base64

  type SigningKey = Bytes

  datatype VerifyingKey = Ed25519(der: Bytes) | RsaPss(der: Bytes)

  /** The library functions the code relies on, as parameters of the model. */
  datatype Scheme = Scheme(
    sha256: Bytes -> Bytes,
    publicDer: SigningKey -> Bytes,
    sign: (SigningKey, Bytes) -> Bytes,
    check: (VerifyingKey, Bytes, Bytes) -> bool,
    parsePublicKey: (string, string) -> Option<VerifyingKey>)

  /** Signing and verifying belong together; nothing else is asked of the scheme. */
  ghost predicate Sound(scheme: Scheme)
  {
    forall key: SigningKey, msg: Bytes ::
      scheme.check(Ed25519(scheme.publicDer(key)), msg, scheme.sign(key, msg))
  }

  function ToVerifyingKey(scheme: Scheme, key: SigningKey): VerifyingKey
  {
    Ed25519(scheme.publicDer(key))
  }

  function SignatureMethod(key: VerifyingKey): string
  {
    match key
    case Ed25519(_) => "ed25519"
    case RsaPss(_) => "rsa-pss"
  }

  function GenerateTokenNonce(scheme: Scheme, key: SigningKey, salt: Bytes): string
  {
    var digest := scheme.sha256(scheme.publicDer(key) + salt);
    Join(["sha256", Base64.Encode(digest), Base64.Encode(salt), "ed25519",
          Base64.Encode(scheme.sign(key, digest))], '.')
  }

  /** `Panicked`: taking the first five of fewer fields is out of range. */
  datatype Verdict = Accepted | Rejected | Panicked

  function VerifyToken(scheme: Scheme, key: VerifyingKey, token: string, saltIsFine: Bytes -> bool): Verdict
  {
    var fields := Fields(token, '.');
    if |fields| < 5 then Panicked
    else if fields[0] != "sha256" then Rejected
    else if fields[3] != SignatureMethod(key) then Rejected
    else
      var salt := Base64.Decode(fields[2]);
      if salt.None? || !saltIsFine(salt.value) then Rejected
      else
        var digest := scheme.sha256(key.der + salt.value);
        var signature := Base64.Decode(fields[4]);
        if Base64.Encode(digest) != fields[1] || signature.None? then Rejected
        else if scheme.check(key, digest, signature.value) then Accepted
        else Rejected
  }

  function VerifyTokenNonce(scheme: Scheme, key: VerifyingKey, token: string, nonce: Bytes): Verdict
  {
    VerifyToken(scheme, key, token, salt => salt == nonce)
  }

  function ExtractSignatureIdentifier(token: string): Option<string>
  {
    var fields := Fields(token, '.');
    if |fields| > 3 then Some(fields[3]) else None
  }

  lemma GeneratedFields(scheme: Scheme, key: SigningKey, salt: Bytes)
    ensures var digest := scheme.sha256(scheme.publicDer(key) + salt);
            Fields(GenerateTokenNonce(scheme, key, salt), '.')
              == ["sha256", Base64.Encode(digest), Base64.Encode(salt), "ed25519",
                  Base64.Encode(scheme.sign(key, digest))]
  {
    var digest := scheme.sha256(scheme.publicDer(key) + salt);
    var fields := ["sha256", Base64.Encode(digest), Base64.Encode(salt), "ed25519",
                   Base64.Encode(scheme.sign(key, digest))];
    Base64.DecodeEncode(digest);
    Base64.DecodeEncode(salt);
    Base64.DecodeEncode(scheme.sign(key, digest));
    FieldsOfJoin(fields, '.');
  }

  /** Checking a freshly built token comes down to the salt check alone. */
  lemma GeneratedVerdict(scheme: Scheme, key: SigningKey, salt: Bytes, saltIsFine: Bytes -> bool)
    requires Sound(scheme)
    ensures VerifyToken(scheme, ToVerifyingKey(scheme, key), GenerateTokenNonce(scheme, key, salt), saltIsFine)
         == if saltIsFine(salt) then Accepted else Rejected
  {
    var digest := scheme.sha256(scheme.publicDer(key) + salt);
    GeneratedFields(scheme, key, salt);
    Base64.DecodeEncode(salt);
    Base64.DecodeEncode(scheme.sign(key, digest));
  }

  /** Build then verify: accepted exactly for the nonce it was built over. */
  lemma NonceToken(scheme: Scheme, key: SigningKey, salt: Bytes, nonce: Bytes)
    requires Sound(scheme)
    ensures VerifyTokenNonce(scheme, ToVerifyingKey(scheme, key), GenerateTokenNonce(scheme, key, salt), nonce)
         == if salt == nonce then Accepted else Rejected
  {
    GeneratedVerdict(scheme, key, salt, s => s == nonce);
  }

  /** The text that a holder of the key writes over the nonce, up to the signature and to fields
      behind it that nobody reads. */
  predicate WellMade(scheme: Scheme, key: VerifyingKey, token: string, nonce: Bytes, signature: Bytes,
                     surplus: seq<string>)
  {
    var digest := scheme.sha256(key.der + nonce);
    var kind := if key.RsaPss? then "rsa-pss" else "ed25519";
    && (forall f :: f in surplus ==> '.' !in f)
    && scheme.check(key, digest, signature)
    && token == Join(["sha256", Base64.Encode(digest), Base64.Encode(nonce), kind, Base64.Encode(signature)]
                     + surplus, '.')
  }

  lemma AcceptedIsWellMade(scheme: Scheme, key: VerifyingKey, token: string, nonce: Bytes)
    requires VerifyTokenNonce(scheme, key, token, nonce).Accepted?
    ensures exists signature, surplus :: WellMade(scheme, key, token, nonce, signature, surplus)
  {
    var fields := Fields(token, '.');
    var signature := Base64.Decode(fields[4]).value;
    Base64.EncodeDecode(fields[2]);
    Base64.EncodeDecode(fields[4]);
    JoinOfFields(token, '.');
    FieldsArePlain(token, '.');
    var made := ["sha256", Base64.Encode(scheme.sha256(key.der + nonce)), Base64.Encode(nonce), fields[3],
                 Base64.Encode(signature)];
    assert fields == made + fields[5..];
    assert WellMade(scheme, key, token, nonce, signature, fields[5..]);
  }

  lemma WellMadeIsAccepted(scheme: Scheme, key: VerifyingKey, token: string, nonce: Bytes, signature: Bytes,
                           surplus: seq<string>)
    requires WellMade(scheme, key, token, nonce, signature, surplus)
    ensures VerifyTokenNonce(scheme, key, token, nonce).Accepted?
  {
    var kind := if key.RsaPss? then "rsa-pss" else "ed25519";
    var made := ["sha256", Base64.Encode(scheme.sha256(key.der + nonce)), Base64.Encode(nonce), kind,
                 Base64.Encode(signature)];
    Base64.DecodeEncode(scheme.sha256(key.der + nonce));
    Base64.DecodeEncode(nonce);
    Base64.DecodeEncode(signature);
    FieldsOfJoin(made + surplus, '.');
    assert Fields(token, '.')[..5] == made;
  }

  /** What acceptance means for a token from anywhere: its text is the one a holder of the
      key would have written over this very nonce, up to the signature and surplus fields; it
      panics over a text of fewer than five fields, and rejects all the rest. */
  lemma AcceptedTokens(scheme: Scheme, key: VerifyingKey, token: string, nonce: Bytes)
    ensures VerifyTokenNonce(scheme, key, token, nonce).Accepted? <==>
      exists signature, surplus :: WellMade(scheme, key, token, nonce, signature, surplus)
    ensures VerifyTokenNonce(scheme, key, token, nonce).Panicked? <==> |Fields(token, '.')| < 5
  {
    assert VerifyTokenNonce(scheme, key, token, nonce).Panicked? <==> |Fields(token, '.')| < 5;
    hide VerifyTokenNonce, WellMade;
    if VerifyTokenNonce(scheme, key, token, nonce).Accepted? {
      AcceptedIsWellMade(scheme, key, token, nonce);
    }
    forall signature, surplus | WellMade(scheme, key, token, nonce, signature, surplus)
      ensures VerifyTokenNonce(scheme, key, token, nonce).Accepted?
    {
      WellMadeIsAccepted(scheme, key, token, nonce, signature, surplus);
    }
  }

  /** A token of one key is accepted under another one only across a hash collision. */
  lemma TokenBindsKey(scheme: Scheme, key: SigningKey, salt: Bytes, other: VerifyingKey, nonce: Bytes)
    requires VerifyTokenNonce(scheme, other, GenerateTokenNonce(scheme, key, salt), nonce).Accepted?
    ensures salt == nonce && other.Ed25519?
    ensures scheme.sha256(other.der + nonce) == scheme.sha256(scheme.publicDer(key) + nonce)
  {
    GeneratedFields(scheme, key, salt);
    Base64.DecodeEncode(salt);
    Base64.DecodeEncode(scheme.sha256(other.der + nonce));
    Base64.DecodeEncode(scheme.sha256(scheme.publicDer(key) + salt));
  }

  // ----- Time stamps -----

  const U64: int := 0x1_0000_0000_0000_0000

  type u64 = x: int | 0 <= x < U64

  const MAX_AGE: nat := 60 * 60

  function GenerateTokenTimestamp(scheme: Scheme, key: SigningKey, now: u64): string
  {
    GenerateTokenNonce(scheme, key, LittleEndian(now, 8))
  }

  /** Unsigned subtraction on 64 bits wraps around. */
  function Age(now: u64, stamp: nat): nat
  {
    (now - stamp) % U64
  }

  function VerifyTokenTimestamp(scheme: Scheme, key: VerifyingKey, token: string, now: u64): Verdict
  {
    VerifyToken(scheme, key, token, salt => |salt| == 8 && Age(now, FromLittleEndian(salt)) <= MAX_AGE)
  }

  lemma EightBytes()
    ensures Power256(8) == U64
  {
    assert Power256(4) == 0x1_0000_0000;
    assert Power256(8) == 256 * (256 * (256 * (256 * Power256(4))));
  }

  lemma AgeOf(now: u64, stamp: u64)
    ensures Age(now, stamp) == if stamp <= now then now - stamp else now - stamp + U64
  {
    WrapOnce(now - stamp, U64);
  }

  lemma WrapOnce(d: int, m: int)
    requires -m < d < m
    ensures d % m == if d >= 0 then d else d + m
  {
    if d < 0 {
      assert d == (-1) * m + (d + m);
    }
  }

  /** A time stamp is good for one hour. One from the future is rejected too, unless it lies
      so far ahead that the 64-bit difference wraps into the hour. */
  lemma TimestampToken(scheme: Scheme, key: SigningKey, stamp: u64, now: u64)
    requires Sound(scheme)
    ensures var verdict := VerifyTokenTimestamp(
              scheme, ToVerifyingKey(scheme, key), GenerateTokenTimestamp(scheme, key, stamp), now);
            && !verdict.Panicked?
            && (stamp <= now ==> (verdict.Accepted? <==> now - stamp <= 3600))
            && (now < stamp ==> (verdict.Accepted? <==> stamp - now >= 0x1_0000_0000_0000_0000 - 3600))
  {
    EightBytes();
    LittleEndianRound(stamp, 8);
    AgeOf(now, stamp);
    GeneratedVerdict(scheme, key, LittleEndian(stamp, 8),
                     salt => |salt| == 8 && Age(now, FromLittleEndian(salt)) <= MAX_AGE);
  }
}
