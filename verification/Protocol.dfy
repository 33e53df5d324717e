/** Constants, errors and the cryptographic primitives every other module is written over. */
module Protocol {
  import opened ByteStrings

  const PROTOCOL_VERSION: u16 := 0x0360
  const MAX_PROTOCOL_U64: u64 := 0x7FFF_FFFF_FFFF_FFFF
  const MAX_LEDGER_ENTRIES: u64 := 64
  const MAX_CANONICAL_BLOB_BYTES: nat := 1_048_576

  datatype ProtocolError =
    | UnexpectedEnd
    | TrailingBytes(count: nat)
    | InvalidBool(tag: int)
    | InvalidOption(tag: int)
    | InvalidStatus(code: u16)
    | LengthLimit(actual: nat, limit: nat)
    | IntegerRange(field: string)
    | ZeroValue(field: string)
    | CloseDelayMismatch
    | ArithmeticOverflow(field: string)
    | InvalidMaxEntries
    | LedgerFull
    | ZeroAmount
    | DuplicateNonce
    | InsufficientRemainder
    | CheckpointMismatch
    | InvalidPublicKey
    | PublicKeyInfinity
    | InvalidSignature
    | SignatureInfinity
    | SignatureVerification
    | MerkleIndex
    | MerkleDirection
    | MerkleRoot
    | RecoveryCount
    | EvidenceContext
    | EvidenceNotConflicting
    | EvidenceOrder

  type Check = Outcome<ProtocolError>

  datatype SecretKey = SecretKey(scalar: nat)

  /** The primitives the program calls but does not define: SHA-256, BLS, CLVM tree hashing, and whether bytes are
      UTF-8 text without control characters. Nothing is assumed about them except, where a statement says so,
      `SignsCorrectly`. */
  datatype Crypto = Crypto(
    sha256: Bytes -> Bytes32,
    decodesAsPublicKey: Bytes48 -> bool,
    decodesAsSignature: Bytes96 -> bool,
    publicKey: SecretKey -> Bytes48,
    blsSign: (SecretKey, Bytes32) -> Bytes96,
    blsVerify: (Bytes96, Bytes48, Bytes32) -> bool,
    treeHash: Bytes -> Option<Bytes32>,
    curryHash: (Bytes32, seq<Bytes>) -> Bytes32,
    printable: Bytes -> bool)

  predicate IsInfinity(b: Bytes)
    requires |b| > 0
  {
    b[0] == 0xc0 && forall i :: 1 <= i < |b| ==> b[i] == 0
  }

  function ParsePublicKey(c: Crypto, key: Bytes48): Check {
    if IsInfinity(key) then Fail(PublicKeyInfinity)
    else if c.decodesAsPublicKey(key) then Pass
    else Fail(InvalidPublicKey)
  }

  function ParseSignature(c: Crypto, signature: Bytes96): Check {
    if IsInfinity(signature) then Fail(SignatureInfinity)
    else if c.decodesAsSignature(signature) then Pass
    else Fail(InvalidSignature)
  }

  function VerifyHash(c: Crypto, key: Bytes48, message: Bytes32, signature: Bytes96): Check {
    var k := ParsePublicKey(c, key);
    var s := ParseSignature(c, signature);
    if k.Fail? then k
    else if s.Fail? then s
    else if c.blsVerify(signature, key, message) then Pass
    else Fail(SignatureVerification)
  }

  /** What is assumed of BLS: a signature made with a key verifies under that key. */
  ghost predicate SignsCorrectly(c: Crypto) {
    forall k: SecretKey, m: Bytes32 :: VerifyHash(c, c.publicKey(k), m, c.blsSign(k, m)).Pass?
  }

  function ValidateU64(field: string, value: u64): Check {
    if value <= MAX_PROTOCOL_U64 then Pass else Fail(IntegerRange(field))
  }

  function ValidatePositive(field: string, value: u64): Check {
    if value > MAX_PROTOCOL_U64 then Fail(IntegerRange(field))
    else if value == 0 then Fail(ZeroValue(field))
    else Pass
  }
}
