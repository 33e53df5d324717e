/** The HUB's durable rows and the functions that read them. Each table is grouped under the funding coin its key
    starts with; a stored blob is modelled by the value it decodes to. */
module HubRecords {
  import opened ByteStrings
  import opened Protocol
  import opened Types

  const RESERVATION_REQUEST_DOMAIN: Bytes := Ascii("XHUB_RESERVATION_REQUEST_V3_6")

  datatype FailurePoint = NoFailure | AfterPreparationCommit | AfterStateSignature

  datatype ChainProviderError = RpcUnavailable | InvalidResponse | ConflictingSources

  datatype HubError =
    | Database(reason: string)
    | ProtocolFailure(cause: ProtocolError)
    | ChainFailure(source: ChainProviderError)
    | ChannelNotFound
    | ChannelConflict
    | HubKeyMismatch
    | ReservationNotFound
    | NonceConflict
    | PendingTransition
    | StateConflict
    | Invalid(reason: string)
    | Corrupt(reason: string)
    | InjectedFailure(point: FailurePoint)

  type Verdict = Outcome<HubError>

  /** `?` on a protocol error inside a HUB function. */
  function Lift<T>(r: Result<T, ProtocolError>): Result<T, HubError> {
    match r case Success(v) => Success(v) case Failure(e) => Failure(ProtocolFailure(e))
  }

  function LiftCheck(check: Check): Verdict {
    match check case Pass => Pass case Fail(e) => Fail(ProtocolFailure(e))
  }

  // ---------------------------------------------------------------- rows

  datatype ChainState =
    Unconfirmed | Active | NodeNotSyncedState | RpcUnavailableState | ChainStateUncertainState | ReorgPending | Closing

  datatype ChannelRow = ChannelRow(
    terms: ChannelTerms,
    termsHash: Bytes32,
    fundingPuzzleReveal: Bytes,
    fundingPuzzleHash: Bytes32,
    fundingBirthHeight: u64,
    acceptanceCutoffHeight: u64,
    scheduledCloseHeight: u64,
    confirmationBlocks: u64,
    chainState: ChainState,
    activated: bool,
    lastPeakHeight: Option<u64>,
    lastPeakHash: Option<Bytes32>,
    latestSequence: u64,
    latestCheckpointHash: Bytes32)

  datatype Stage = Prepared | Signed

  datatype Intent = Intent(
    previousCheckpointHash: Bytes32,
    checkpointHash: Bytes32,
    checkpoint: LedgerCheckpoint,
    commitHeight: u64,
    reservationNonce: Bytes32,
    stage: Stage,
    hubStateSignature: Option<Bytes96>,
    recoveryPackage: Option<RecoveryPackage>)

  datatype StateRow = StateRow(
    checkpointHash: Bytes32,
    officialState: OfficialState,
    recoveryPackage: RecoveryPackage,
    commitHeight: u64)

  datatype LedgerRow = LedgerRow(
    entryIndex: u64,
    entry: LedgerEntry,
    signature: Bytes96,
    reservationNonce: Bytes32,
    stateSequence: u64)

  datatype Reservation = Reservation(
    requestFingerprint: Bytes32,
    requestId: Bytes32,
    authorizationHash: Bytes32,
    entry: LedgerEntry,
    signature: Bytes96,
    observedPeakHeight: u64,
    acceptanceCutoffHeight: u64,
    scheduledCloseHeight: u64,
    targetStatus: ReservationStatus,
    targetStateSequence: Option<u64>,
    targetCheckpointHash: Option<Bytes32>,
    entryIndex: Option<u64>,
    ledgerWritten: bool,
    stage: Stage,
    signedResult: Option<SignedReservationResult>)

  /** Everything stored under one funding coin. `ledger` is kept in the order of its primary key. */
  datatype Channel = Channel(
    row: ChannelRow,
    intents: map<u64, Intent>,
    states: map<u64, StateRow>,
    ledger: seq<LedgerRow>,
    reservations: map<Bytes32, Reservation>)

  type Database = map<Bytes32, Channel>

  // ---------------------------------------------------------------- requests and answers

  datatype ReservationRequest = ReservationRequest(
    requestId: Bytes32, fundingCoinId: Bytes32, entry: LedgerEntry, signature: Bytes96)

  datatype ReservationOutcome = ReservationOutcome(
    signedResult: SignedReservationResult, recoveryPackage: Option<RecoveryPackage>)

  function FingerprintPreimage(entry: LedgerEntry, signature: Bytes96): Bytes {
    RESERVATION_REQUEST_DOMAIN + (EncodeEntry(entry) + signature)
  }

  function FingerprintDigest(c: Crypto, entry: LedgerEntry, signature: Bytes96): Bytes32 {
    c.sha256(FingerprintPreimage(entry, signature))
  }

  function Fingerprint(c: Crypto, request: ReservationRequest): Result<Bytes32, HubError> {
    var valid := LiftCheck(ValidateEntry(c, request.entry));
    :- valid;
    :- LiftCheck(ParseSignature(c, request.signature));
    Success(FingerprintDigest(c, request.entry, request.signature))
  }

  // ---------------------------------------------------------------- heights

  function CheckedHeight(field: string, value: u64): Verdict {
    if value <= MAX_PROTOCOL_U64 then Pass else Fail(ProtocolFailure(IntegerRange(field)))
  }

  function CheckedAddHeight(left: u64, right: u64, field: string): Result<u64, HubError> {
    if left + right >= 0x1_0000_0000_0000_0000 then Failure(ProtocolFailure(ArithmeticOverflow(field)))
    else if left + right > MAX_PROTOCOL_U64 then Failure(ProtocolFailure(IntegerRange(field)))
    else Success(left + right)
  }

  /** An integer column holds only what fits a signed 64-bit integer. */
  function FitsColumn(value: u64): Verdict {
    CheckedHeight("sqlite u64", value)
  }

  function ConfirmationDepth(peak: u64, birth: u64): u64 {
    if peak < birth || peak - birth + 1 >= 0x1_0000_0000_0000_0000 then 0 else peak - birth + 1
  }

  function RequireHubKey(c: Crypto, terms: ChannelTerms, key: SecretKey): Verdict {
    if c.publicKey(key) == terms.hubStatePublicKeyA then Pass else Fail(HubKeyMismatch)
  }

  function ProgramTreeHash(c: Crypto, program: Bytes): Result<Bytes32, HubError> {
    match c.treeHash(program)
    case Some(hash) => Success(hash)
    case None => Failure(Invalid("funding puzzle reveal"))
  }

  // ---------------------------------------------------------------- loading a channel

  /** The bindings of a channel row to its terms, its puzzle and its heights. */
  function CheckChannelRow(c: Crypto, row: ChannelRow): Verdict {
    var cutoff := CheckedAddHeight(row.fundingBirthHeight, row.terms.acceptanceBlocks, "acceptance_cutoff_height");
    var puzzle := ProgramTreeHash(c, row.fundingPuzzleReveal);
    var close := CheckedAddHeight(row.fundingBirthHeight, row.terms.closeDelayBlocks, "scheduled_close_height");
    if ValidateTerms(c, row.terms).Fail? then Fail(Corrupt("channel terms"))
    else if cutoff.Failure? then Fail(cutoff.error)
    else if TermsDigest(c, row.terms) != row.termsHash then Fail(Corrupt("channel terms binding"))
    else if puzzle.Failure? then Fail(puzzle.error)
    else if puzzle.value != row.fundingPuzzleHash then Fail(Corrupt("channel terms binding"))
    else if !row.activated && cutoff.value != row.acceptanceCutoffHeight then Fail(Corrupt("channel terms binding"))
    else if row.activated && row.acceptanceCutoffHeight > cutoff.value then Fail(Corrupt("channel terms binding"))
    else if close.Failure? then Fail(close.error)
    else if close.value != row.scheduledCloseHeight then Fail(Corrupt("channel terms binding"))
    else Pass
  }

  /** The binding of the channel's head pointer to state zero or to the latest state row. */
  function CheckHeadPointer(c: Crypto, coin: Bytes32, ch: Channel): Verdict {
    if ch.row.latestSequence == 0 then
      if ch.row.latestCheckpointHash != StateZeroDigest(c, ch.row.terms, coin) then Fail(Corrupt("state zero pointer"))
      else Pass
    else if ch.row.latestSequence !in ch.states then Fail(Corrupt("latest state row"))
    else if ch.states[ch.row.latestSequence].checkpointHash != ch.row.latestCheckpointHash then
      Fail(Corrupt("latest state pointer"))
    else Pass
  }

  function LoadChannel(c: Crypto, db: Database, coin: Bytes32): Result<ChannelRow, HubError> {
    if coin !in db then Failure(ChannelNotFound) else
    :- CheckChannelRow(c, db[coin].row);
    :- CheckHeadPointer(c, coin, db[coin]);
    Success(db[coin].row)
  }

  // ---------------------------------------------------------------- loading a reservation

  function LoadReservation(c: Crypto, db: Database, coin: Bytes32, nonce: Bytes32)
    : Result<Option<Reservation>, HubError>
  {
    if coin !in db || nonce !in db[coin].reservations then Success(None) else
    var r := db[coin].reservations[nonce];
    if ValidateEntry(c, r.entry).Fail? then Failure(Corrupt("ledger entry"))
    else if ParseSignature(c, r.signature).Fail? then Failure(Corrupt("user signature"))
    else if r.entry.reservationNonce != nonce || r.requestFingerprint != FingerprintDigest(c, r.entry, r.signature) then
      Failure(Corrupt("reservation request binding"))
    else Success(Some(r))
  }

  function HasTargets(r: Reservation): bool {
    r.targetStateSequence.Some? && r.targetCheckpointHash.Some? && r.entryIndex.Some? && r.ledgerWritten
  }

  function HasAnyTarget(r: Reservation): bool {
    r.targetStateSequence.Some? || r.targetCheckpointHash.Some? || r.entryIndex.Some? || r.ledgerWritten
  }

  function IsSignedTarget(r: Reservation): bool {
    r.targetStatus == ReservationStatus.Signed
  }

  function ValidateBinding(c: Crypto, r: Reservation, terms: ChannelTerms, coin: Bytes32, nonce: Bytes32): Verdict {
    var authorization := Lift(AuthorizationHash(c, terms, coin, r.entry));
    if r.entry.reservationNonce != nonce then Fail(Corrupt("reservation authorization binding"))
    else if authorization.Failure? then Fail(authorization.error)
    else if r.authorizationHash != authorization.value then Fail(Corrupt("reservation authorization binding"))
    else if IsSignedTarget(r) != HasTargets(r)
         || (!IsSignedTarget(r) && HasAnyTarget(r))
         || (r.stage.Prepared? && r.signedResult.Some?)
         || (r.stage.Signed? && r.signedResult.None?) then Fail(Corrupt("reservation state binding"))
    else Pass
  }

  function ResultFrom(r: Reservation, terms: ChannelTerms, coin: Bytes32, nonce: Bytes32): ReservationResult {
    ReservationResult(terms.networkId, r.requestId, coin, nonce, r.authorizationHash, r.targetStatus,
      r.targetStateSequence, r.targetCheckpointHash, r.observedPeakHeight, r.acceptanceCutoffHeight,
      r.scheduledCloseHeight, r.ledgerWritten)
  }

  // ---------------------------------------------------------------- loading the ledger and an intent

  function Entries(rows: seq<LedgerRow>): (entries: seq<LedgerEntry>)
    ensures |entries| == |rows|
    ensures forall i :: 0 <= i < |rows| ==> entries[i] == rows[i].entry
  {
    seq(|rows|, i requires 0 <= i < |rows| => rows[i].entry)
  }

  function Signatures(rows: seq<LedgerRow>): (signatures: seq<Bytes96>)
    ensures |signatures| == |rows|
    ensures forall i :: 0 <= i < |rows| ==> signatures[i] == rows[i].signature
  {
    seq(|rows|, i requires 0 <= i < |rows| => rows[i].signature)
  }

  /** `load_committed_ledger`: every stored row must still decode. */
  function CheckLedgerRows(c: Crypto, rows: seq<LedgerRow>): Verdict {
    if rows == [] then Pass
    else if ValidateEntry(c, rows[0].entry).Fail? then Fail(Corrupt("ledger entry"))
    else if ParseSignature(c, rows[0].signature).Fail? then Fail(Corrupt("user signature"))
    else CheckLedgerRows(c, rows[1..])
  }

  function LoadLedger(c: Crypto, db: Database, coin: Bytes32): Result<seq<LedgerRow>, HubError> {
    if coin !in db then Success([]) else
    :- CheckLedgerRows(c, db[coin].ledger);
    Success(db[coin].ledger)
  }

  function LoadIntentCheckpoint(db: Database, coin: Bytes32, sequence: u64): Result<LedgerCheckpoint, HubError> {
    var valid := FitsColumn(sequence);
    :- valid;
    if coin in db && sequence in db[coin].intents && db[coin].intents[sequence].stage.Prepared? then
      Success(db[coin].intents[sequence].checkpoint)
    else Failure(Database("no prepared intent"))
  }

  predicate HasPreparedIntent(ch: Channel) {
    exists k :: k in ch.intents && ch.intents[k].stage.Prepared?
  }
}
