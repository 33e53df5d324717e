/** The protocol's data types, their validation rules, their canonical encodings and their hashes. */
module Types {
  import opened ByteStrings
  import opened Protocol
  import opened Encoding

  const CHANNEL_TERMS_DOMAIN: Bytes := Ascii("XHUB_CHANNEL_TERMS_V3_6")
  const USER_AUTH_DOMAIN: Bytes := Ascii("XHUB_USER_AUTH_V3_6")
  const LEDGER_ENTRY_DOMAIN: Bytes := Ascii("XHUB_LEDGER_ENTRY_V3_6")
  const CHECKPOINT_DOMAIN: Bytes := Ascii("XHUB_LEDGER_CHECKPOINT_V3_6")
  const HUB_STATE_DOMAIN: Bytes := Ascii("XHUB_HUB_STATE_V3_6")
  const STATE_ZERO_DOMAIN: Bytes := Ascii("XHUB_STATE_ZERO_V3_6")
  const RESERVATION_RESULT_DOMAIN: Bytes := Ascii("XHUB_RESERVATION_RESULT_V3_6")

  // ---------------------------------------------------------------- channel terms

  datatype ChannelTerms = ChannelTerms(
    networkId: Bytes32,
    acceptanceBlocks: u64,
    freezeBlocks: u64,
    closeDelayBlocks: u64,
    challengeBlocks: u64,
    userPublicKey: Bytes48,
    hubStatePublicKeyA: Bytes48,
    stateRulesHash: Bytes32,
    fundingAmount: u64,
    userRemainderPuzzleHash: Bytes32,
    maxLedgerEntries: u64)

  function ValidateTerms(c: Crypto, t: ChannelTerms): Check {
    ValidatePositive("acceptance_blocks", t.acceptanceBlocks)
    .Then(ValidatePositive("freeze_blocks", t.freezeBlocks))
    .Then(ValidatePositive("close_delay_blocks", t.closeDelayBlocks))
    .Then(ValidatePositive("challenge_blocks", t.challengeBlocks))
    .Then(ValidatePositive("funding_amount", t.fundingAmount))
    .Then(if t.acceptanceBlocks + t.freezeBlocks >= 0x1_0000_0000_0000_0000 then
          Fail(ArithmeticOverflow("close_delay_blocks")) else Pass)
    .Then(if t.closeDelayBlocks != t.acceptanceBlocks + t.freezeBlocks then Fail(CloseDelayMismatch) else Pass)
    .Then(if t.maxLedgerEntries != MAX_LEDGER_ENTRIES then Fail(InvalidMaxEntries) else Pass)
    .Then(ParsePublicKey(c, t.userPublicKey))
    .Then(ParsePublicKey(c, t.hubStatePublicKeyA))
  }

  predicate ValidTerms(c: Crypto, t: ChannelTerms) {
    ValidateTerms(c, t).Pass?
  }

  function EncodeTerms(t: ChannelTerms): Bytes {
    U16(PROTOCOL_VERSION) + (t.networkId + (U64(t.acceptanceBlocks) + (U64(t.freezeBlocks) + (
    U64(t.closeDelayBlocks) + (U64(t.challengeBlocks) + (t.userPublicKey + (t.hubStatePublicKeyA + (
    t.stateRulesHash + (U64(t.fundingAmount) + (t.userRemainderPuzzleHash + U64(t.maxLedgerEntries)))))))))))
  }

  function TermsPreimage(t: ChannelTerms): Bytes {
    CHANNEL_TERMS_DOMAIN + EncodeTerms(t)
  }

  /** The channel-terms digest, before the validity check that guards it. */
  function TermsDigest(c: Crypto, t: ChannelTerms): Bytes32 {
    c.sha256(TermsPreimage(t))
  }

  function TermsHash(c: Crypto, t: ChannelTerms): Result<Bytes32, ProtocolError> {
    var valid := ValidateTerms(c, t);
    :- valid;
    Success(TermsDigest(c, t))
  }

  /** What a valid set of terms promises, read off the chain of checks. */
  lemma TermsFacts(c: Crypto, t: ChannelTerms)
    ensures ValidTerms(c, t) <==>
            && 0 < t.acceptanceBlocks <= MAX_PROTOCOL_U64
            && 0 < t.freezeBlocks <= MAX_PROTOCOL_U64
            && 0 < t.challengeBlocks <= MAX_PROTOCOL_U64
            && 0 < t.fundingAmount <= MAX_PROTOCOL_U64
            && t.closeDelayBlocks <= MAX_PROTOCOL_U64
            && t.closeDelayBlocks == t.acceptanceBlocks + t.freezeBlocks
            && t.maxLedgerEntries == 64
            && ParsePublicKey(c, t.userPublicKey).Pass?
            && ParsePublicKey(c, t.hubStatePublicKeyA).Pass?
  {
  }

  // ---------------------------------------------------------------- ledger entries

  datatype LedgerEntry = LedgerEntry(
    merchantPuzzleHash: Bytes32,
    merchantReceiptPublicKey: Bytes48,
    amount: u64,
    reservationNonce: Bytes32)

  function ValidateEntry(c: Crypto, e: LedgerEntry): Check {
    if e.amount > MAX_PROTOCOL_U64 then Fail(IntegerRange("amount"))
    else if e.amount == 0 then Fail(ZeroAmount)
    else ParsePublicKey(c, e.merchantReceiptPublicKey)
  }

  function EncodeEntry(e: LedgerEntry): (b: Bytes)
    ensures |b| == 120
  {
    e.merchantPuzzleHash + (e.merchantReceiptPublicKey + (U64(e.amount) + e.reservationNonce))
  }

  function AuthorizationPreimage(t: ChannelTerms, termsHash: Bytes32, coin: Bytes32, e: LedgerEntry): Bytes {
    USER_AUTH_DOMAIN + (U16(PROTOCOL_VERSION) + (t.networkId + (coin + (termsHash + EncodeEntry(e)))))
  }

  function AuthorizationDigest(c: Crypto, t: ChannelTerms, coin: Bytes32, e: LedgerEntry): Bytes32 {
    c.sha256(AuthorizationPreimage(t, TermsDigest(c, t), coin, e))
  }

  function AuthorizationHash(c: Crypto, t: ChannelTerms, coin: Bytes32, e: LedgerEntry)
    : Result<Bytes32, ProtocolError>
  {
    var valid := ValidateEntry(c, e);
    :- valid;
    :- ValidateTerms(c, t);
    Success(AuthorizationDigest(c, t, coin, e))
  }

  function EntryPreimage(index: u64, e: LedgerEntry, authorization: Bytes32): Bytes {
    LEDGER_ENTRY_DOMAIN + (U64(index) + (EncodeEntry(e) + authorization))
  }

  function EntryDigest(c: Crypto, t: ChannelTerms, coin: Bytes32, e: LedgerEntry, index: u64): Bytes32 {
    c.sha256(EntryPreimage(index, e, AuthorizationDigest(c, t, coin, e)))
  }

  function EntryHash(c: Crypto, t: ChannelTerms, coin: Bytes32, e: LedgerEntry, index: u64)
    : Result<Bytes32, ProtocolError>
  {
    var valid := ValidateU64("entry_index", index);
    :- valid;
    :- ValidateEntry(c, e);
    :- ValidateTerms(c, t);
    Success(EntryDigest(c, t, coin, e, index))
  }

  // ---------------------------------------------------------------- checkpoints

  datatype LedgerCheckpoint = LedgerCheckpoint(
    fundingCoinId: Bytes32,
    channelTermsHash: Bytes32,
    stateSequence: u64,
    previousCheckpointHash: Bytes32,
    manifestRoot: Bytes32,
    entryCount: u64,
    reservedTotal: u64,
    userRemainder: u64)

  function ValidateCheckpoint(c: Crypto, t: ChannelTerms, k: LedgerCheckpoint): Check {
    ValidateU64("state_sequence", k.stateSequence)
    .Then(ValidateU64("entry_count", k.entryCount))
    .Then(ValidateU64("reserved_total", k.reservedTotal))
    .Then(ValidateU64("user_remainder", k.userRemainder))
    .Then(ValidateTerms(c, t))
    .Then(if k.channelTermsHash != TermsDigest(c, t) || k.entryCount > MAX_LEDGER_ENTRIES then Fail(CheckpointMismatch)
          else Pass)
    .Then(if k.reservedTotal + k.userRemainder >= 0x1_0000_0000_0000_0000 then
          Fail(ArithmeticOverflow("checkpoint total")) else Pass)
    .Then(if k.reservedTotal + k.userRemainder != t.fundingAmount then Fail(CheckpointMismatch) else Pass)
  }

  lemma CheckpointFacts(c: Crypto, t: ChannelTerms, k: LedgerCheckpoint)
    ensures ValidateCheckpoint(c, t, k).Pass? <==>
            && ValidTerms(c, t)
            && k.stateSequence <= MAX_PROTOCOL_U64
            && k.entryCount <= 64
            && k.channelTermsHash == TermsDigest(c, t)
            && k.reservedTotal + k.userRemainder == t.fundingAmount
  {
    TermsFacts(c, t);
  }

  function EncodeCheckpoint(k: LedgerCheckpoint): Bytes {
    k.fundingCoinId + (k.channelTermsHash + (U64(k.stateSequence) + (k.previousCheckpointHash + (k.manifestRoot + (
    U64(k.entryCount) + (U64(k.reservedTotal) + U64(k.userRemainder)))))))
  }

  function CheckpointPreimage(t: ChannelTerms, k: LedgerCheckpoint): Bytes {
    CHECKPOINT_DOMAIN + (U16(PROTOCOL_VERSION) + (t.networkId + EncodeCheckpoint(k)))
  }

  function CheckpointDigest(c: Crypto, t: ChannelTerms, k: LedgerCheckpoint): Bytes32 {
    c.sha256(CheckpointPreimage(t, k))
  }

  function CheckpointHash(c: Crypto, t: ChannelTerms, k: LedgerCheckpoint): Result<Bytes32, ProtocolError> {
    var valid := ValidateCheckpoint(c, t, k);
    :- valid;
    Success(CheckpointDigest(c, t, k))
  }

  function HubStatePreimage(checkpointHash: Bytes32): Bytes {
    HUB_STATE_DOMAIN + checkpointHash
  }

  function HubStateDigest(c: Crypto, t: ChannelTerms, k: LedgerCheckpoint): Bytes32 {
    c.sha256(HubStatePreimage(CheckpointDigest(c, t, k)))
  }

  function HubStateHash(c: Crypto, t: ChannelTerms, k: LedgerCheckpoint): Result<Bytes32, ProtocolError> {
    var valid := ValidateCheckpoint(c, t, k);
    :- valid;
    Success(HubStateDigest(c, t, k))
  }

  datatype OfficialState = OfficialState(checkpoint: LedgerCheckpoint, hubStateSignature: Bytes96)

  function VerifyOfficialState(c: Crypto, t: ChannelTerms, s: OfficialState): Check {
    var message := HubStateHash(c, t, s.checkpoint);
    if message.Failure? then Fail(message.error)
    else VerifyHash(c, t.hubStatePublicKeyA, message.value, s.hubStateSignature)
  }

  function EncodeOfficialState(s: OfficialState): Bytes {
    EncodeCheckpoint(s.checkpoint) + s.hubStateSignature
  }

  // ---------------------------------------------------------------- state zero

  function StateZeroPreimage(t: ChannelTerms, termsHash: Bytes32, coin: Bytes32): Bytes {
    STATE_ZERO_DOMAIN + (U16(PROTOCOL_VERSION) + (t.networkId + (coin + (termsHash + (U64(t.fundingAmount) +
    t.userRemainderPuzzleHash)))))
  }

  function StateZeroDigest(c: Crypto, t: ChannelTerms, coin: Bytes32): Bytes32 {
    c.sha256(StateZeroPreimage(t, TermsDigest(c, t), coin))
  }

  // ---------------------------------------------------------------- recovery packages

  datatype RecoveryPackage = RecoveryPackage(
    fundingCoinId: Bytes32,
    fundingPuzzleReveal: Bytes,
    fundingAmount: u64,
    channelTerms: ChannelTerms,
    officialState: OfficialState,
    entries: seq<LedgerEntry>,
    userAuthorizationSignatures: seq<Bytes96>)

  function EncodeEntries(entries: seq<LedgerEntry>): Bytes {
    if entries == [] then [] else EncodeEntry(entries[0]) + EncodeEntries(entries[1..])
  }

  function EncodeSignatures(signatures: seq<Bytes96>): Bytes {
    if signatures == [] then [] else signatures[0] + EncodeSignatures(signatures[1..])
  }

  /** The encoder panics beyond these sizes; a package that validates is far inside them. */
  predicate Encodable(p: RecoveryPackage) {
    && |p.fundingPuzzleReveal| < 0x1_0000_0000
    && |p.entries| < 0x1_0000_0000
    && |p.userAuthorizationSignatures| < 0x1_0000_0000
  }

  function EncodePackage(p: RecoveryPackage): Bytes
    requires Encodable(p)
  {
    p.fundingCoinId + (PutBlob(p.fundingPuzzleReveal) + (U64(p.fundingAmount) + (EncodeTerms(p.channelTerms) + (
    EncodeOfficialState(p.officialState) + (U32(|p.entries|) + (EncodeEntries(p.entries) + (
    U32(|p.userAuthorizationSignatures|) + EncodeSignatures(p.userAuthorizationSignatures))))))))
  }

  // ---------------------------------------------------------------- delivery confirmations

  datatype DeliveryConfirmation = DeliveryConfirmation(
    networkId: Bytes32,
    fundingCoinId: Bytes32,
    channelTermsHash: Bytes32,
    stateSequence: u64,
    checkpointHash: Bytes32,
    entryIndex: u64,
    authorizationHash: Bytes32,
    recoveryPackageContentHash: Bytes32)

  function ValidateConfirmation(d: DeliveryConfirmation): Check {
    ValidateU64("state_sequence", d.stateSequence)
    .Then(ValidateU64("entry_index", d.entryIndex))
  }

  function EncodeConfirmation(d: DeliveryConfirmation): Bytes {
    U16(PROTOCOL_VERSION) + (d.networkId + (d.fundingCoinId + (d.channelTermsHash + (U64(d.stateSequence) + (
    d.checkpointHash + (U64(d.entryIndex) + (d.authorizationHash + d.recoveryPackageContentHash)))))))
  }

  // ---------------------------------------------------------------- reservation results

  datatype ReservationStatus =
    | Signed | Delivered | Pending | Unknown
    | RejectedFreezing | RejectedCloseable | InvalidAuthorization | InsufficientRemainderStatus | NonceConflictStatus
    | LedgerFullStatus | ChannelClosing | ChannelFinalized
    | NodeNotSynced | RpcUnavailable | ChainStateUncertain | ChannelReorgPending | InternalError

  function StatusCode(s: ReservationStatus): u16 {
    match s
    case Signed => 1 case Delivered => 2 case Pending => 3 case Unknown => 4
    case RejectedFreezing => 100 case RejectedCloseable => 101 case InvalidAuthorization => 102
    case InsufficientRemainderStatus => 103 case NonceConflictStatus => 104 case LedgerFullStatus => 105
    case ChannelClosing => 106 case ChannelFinalized => 107
    case NodeNotSynced => 200 case RpcUnavailable => 201 case ChainStateUncertain => 202
    case ChannelReorgPending => 203 case InternalError => 204
  }

  function StatusFromCode(code: u16): Result<ReservationStatus, ProtocolError> {
    if code == 1 then Success(Signed)
    else if code == 2 then Success(Delivered)
    else if code == 3 then Success(Pending)
    else if code == 4 then Success(Unknown)
    else if code == 100 then Success(RejectedFreezing)
    else if code == 101 then Success(RejectedCloseable)
    else if code == 102 then Success(InvalidAuthorization)
    else if code == 103 then Success(InsufficientRemainderStatus)
    else if code == 104 then Success(NonceConflictStatus)
    else if code == 105 then Success(LedgerFullStatus)
    else if code == 106 then Success(ChannelClosing)
    else if code == 107 then Success(ChannelFinalized)
    else if code == 200 then Success(NodeNotSynced)
    else if code == 201 then Success(RpcUnavailable)
    else if code == 202 then Success(ChainStateUncertain)
    else if code == 203 then Success(ChannelReorgPending)
    else if code == 204 then Success(InternalError)
    else Failure(InvalidStatus(code))
  }

  datatype ReservationResult = ReservationResult(
    networkId: Bytes32,
    requestId: Bytes32,
    fundingCoinId: Bytes32,
    reservationNonce: Bytes32,
    authorizationHash: Bytes32,
    status: ReservationStatus,
    stateSequence: Option<u64>,
    checkpointHash: Option<Bytes32>,
    observedPeakHeight: u64,
    acceptanceCutoffHeight: u64,
    scheduledCloseHeight: u64,
    ledgerWritten: bool)

  function ValidateResult(r: ReservationResult): Check {
    ValidateU64("observed_peak_height", r.observedPeakHeight)
    .Then(ValidateU64("acceptance_cutoff_height", r.acceptanceCutoffHeight))
    .Then(ValidateU64("scheduled_close_height", r.scheduledCloseHeight))
    .Then(if r.stateSequence.Some? then ValidateU64("state_sequence", r.stateSequence.value) else Pass)
    .Then(if r.stateSequence.Some? != r.checkpointHash.Some? then Fail(CheckpointMismatch) else Pass)
  }

  function EncodeOptionU64(o: Option<u64>): Bytes {
    match o case Some(v) => [1] + U64(v) case None => [0]
  }

  function EncodeOption32(o: Option<Bytes32>): Bytes {
    match o case Some(v) => [1] + v case None => [0]
  }

  function EncodeResult(r: ReservationResult): Bytes {
    U16(PROTOCOL_VERSION) + (r.networkId + (r.requestId + (r.fundingCoinId + (r.reservationNonce + (
    r.authorizationHash + (U16(StatusCode(r.status)) + (EncodeOptionU64(r.stateSequence) + (
    EncodeOption32(r.checkpointHash) + (U64(r.observedPeakHeight) + (U64(r.acceptanceCutoffHeight) + (
    U64(r.scheduledCloseHeight) + PutBool(r.ledgerWritten))))))))))))
  }

  function ResultPreimage(r: ReservationResult): Bytes {
    RESERVATION_RESULT_DOMAIN + EncodeResult(r)
  }

  function ResultDigest(c: Crypto, r: ReservationResult): Bytes32 {
    c.sha256(ResultPreimage(r))
  }

  function ResultHash(c: Crypto, r: ReservationResult): Result<Bytes32, ProtocolError> {
    var valid := ValidateResult(r);
    :- valid;
    Success(ResultDigest(c, r))
  }

  datatype SignedReservationResult = SignedReservationResult(result: ReservationResult, hubResultSignature: Bytes96)

  function VerifySignedResult(c: Crypto, t: ChannelTerms, s: SignedReservationResult): Check {
    var message := ResultHash(c, s.result);
    if s.result.networkId != t.networkId then Fail(EvidenceContext)
    else if message.Failure? then Fail(message.error)
    else VerifyHash(c, t.hubStatePublicKeyA, message.value, s.hubResultSignature)
  }

  function EncodeSignedResult(s: SignedReservationResult): Bytes {
    EncodeResult(s.result) + s.hubResultSignature
  }

  // ---------------------------------------------------------------- evidence of misbehaviour

  /** Byte-wise lexicographic order, as arrays compare. */
  predicate LessOrEqual(a: Bytes, b: Bytes)
    decreases |a|
  {
    a == [] || (b != [] && (a[0] < b[0] || (a[0] == b[0] && LessOrEqual(a[1..], b[1..]))))
  }

  datatype DoubleSignEvidence = DoubleSignEvidence(first: OfficialState, second: OfficialState)

  function ValidateDoubleSign(c: Crypto, t: ChannelTerms, e: DoubleSignEvidence): Check {
    var a, b := e.first.checkpoint, e.second.checkpoint;
    VerifyOfficialState(c, t, e.first)
    .Then(VerifyOfficialState(c, t, e.second))
    .Then(if a.fundingCoinId != b.fundingCoinId || a.channelTermsHash != b.channelTermsHash
          || a.stateSequence != b.stateSequence then Fail(EvidenceContext) else Pass)
    .Then(if CheckpointDigest(c, t, a) == CheckpointDigest(c, t, b) then Fail(EvidenceNotConflicting) else Pass)
    .Then(if !LessOrEqual(CheckpointDigest(c, t, a), CheckpointDigest(c, t, b)) then Fail(EvidenceOrder) else Pass)
  }

  function EncodeDoubleSign(e: DoubleSignEvidence): Bytes {
    EncodeOfficialState(e.first) + EncodeOfficialState(e.second)
  }

  datatype ConflictingResultEvidence =
    ConflictingResultEvidence(first: SignedReservationResult, second: SignedReservationResult)

  function ValidateConflict(c: Crypto, t: ChannelTerms, e: ConflictingResultEvidence): Check {
    var a, b := e.first.result, e.second.result;
    VerifySignedResult(c, t, e.first)
    .Then(VerifySignedResult(c, t, e.second))
    .Then(if a.networkId != b.networkId || a.fundingCoinId != b.fundingCoinId
          || a.reservationNonce != b.reservationNonce then Fail(EvidenceContext) else Pass)
    .Then(if ResultDigest(c, a) == ResultDigest(c, b) then Fail(EvidenceNotConflicting) else Pass)
    .Then(if !LessOrEqual(ResultDigest(c, a), ResultDigest(c, b)) then Fail(EvidenceOrder) else Pass)
  }

  function EncodeConflict(e: ConflictingResultEvidence): Bytes {
    EncodeSignedResult(e.first) + EncodeSignedResult(e.second)
  }
}
