/** The HUB's atomic steps: registering a channel, the transaction that prepares a reservation, and the reads,
    signatures and transaction that finalize one. Each is a function of the database it finds. */
module HubSteps {
  import opened ByteStrings
  import opened Protocol
  import opened Types
  import opened Ledgers
  import opened Packages
  import opened HubRecords
  import opened HubGate
  import Codec

  // ---------------------------------------------------------------- registration

  datatype ChannelRegistration = ChannelRegistration(
    fundingCoinId: Bytes32, fundingPuzzleReveal: Bytes, fundingBirthHeight: u64, terms: ChannelTerms)

  datatype ChannelSnapshot = ChannelSnapshot(
    fundingCoinId: Bytes32, latestSequence: u64, latestCheckpointHash: Bytes32, entryCount: nat,
    fundingBirthHeight: u64, acceptanceCutoffHeight: u64, scheduledCloseHeight: u64, chainState: ChainState,
    lastPeakHeight: Option<u64>)

  /** `ChannelRegistration::validate`, with the puzzle hash, cutoff and close it computes on the way. */
  function ValidateRegistration(c: Crypto, reg: ChannelRegistration): Result<(Bytes32, u64, u64), HubError> {
    var valid := LiftCheck(ValidateTerms(c, reg.terms));
    :- valid;
    :- if |reg.fundingPuzzleReveal| > MAX_CANONICAL_BLOB_BYTES
       then Fail(ProtocolFailure(LengthLimit(|reg.fundingPuzzleReveal|, MAX_CANONICAL_BLOB_BYTES))) else Pass;
    :- CheckedHeight("funding_birth_height", reg.fundingBirthHeight);
    var puzzleHash :- ProgramTreeHash(c, reg.fundingPuzzleReveal);
    var cutoff :- CheckedAddHeight(reg.fundingBirthHeight, reg.terms.acceptanceBlocks, "acceptance_cutoff_height");
    var close :- CheckedAddHeight(reg.fundingBirthHeight, reg.terms.closeDelayBlocks, "scheduled_close_height");
    Success((puzzleHash, cutoff, close))
  }

  function NewRow(c: Crypto, reg: ChannelRegistration, computed: (Bytes32, u64, u64), confirmationBlocks: u64,
                  state: ChainState, peak: Option<Peak>): ChannelRow
  {
    ChannelRow(reg.terms, TermsDigest(c, reg.terms), reg.fundingPuzzleReveal, computed.0, reg.fundingBirthHeight,
      computed.1, computed.2, confirmationBlocks, state, state == Active,
      if peak.Some? then Some(peak.value.height) else None,
      if peak.Some? then Some(peak.value.headerHash) else None,
      0, StateZeroDigest(c, reg.terms, reg.fundingCoinId))
  }

  function CheckPeakFits(peak: Option<Peak>): Verdict {
    if peak.Some? then FitsColumn(peak.value.height) else Pass
  }

  /** The comparison of what is stored with what was asked for. */
  predicate Registered(c: Crypto, stored: ChannelRow, asked: ChannelRow) {
    && stored.terms == asked.terms && stored.fundingPuzzleReveal == asked.fundingPuzzleReveal
    && stored.fundingPuzzleHash == asked.fundingPuzzleHash
    && stored.fundingBirthHeight == asked.fundingBirthHeight
    && stored.acceptanceCutoffHeight == asked.acceptanceCutoffHeight
    && stored.scheduledCloseHeight == asked.scheduledCloseHeight
    && stored.confirmationBlocks == asked.confirmationBlocks
    && (stored.latestSequence == 0 ==> stored.latestCheckpointHash == asked.latestCheckpointHash)
  }

  /** `INSERT … ON CONFLICT DO NOTHING`, then insist that what is stored is what was asked for. */
  function InsertChannel(c: Crypto, db: Database, coin: Bytes32, asked: ChannelRow): Result<Database, HubError> {
    var inserted := if coin in db then db else db[coin := Channel(asked, map[], map[], [], map[])];
    var stored :- LoadChannel(c, inserted, coin);
    if Registered(c, stored, asked) then Success(inserted) else Failure(ChannelConflict)
  }

  function Register(c: Crypto, db: Database, reg: ChannelRegistration, now: u64, confirmationBlocks: u64,
                    state: ChainState, peak: Option<Peak>): Result<Database, HubError>
  {
    var computed :- ValidateRegistration(c, reg);
    :- CheckedHeight("now", now);
    :- FitsColumn(confirmationBlocks);
    :- CheckPeakFits(peak);
    InsertChannel(c, db, reg.fundingCoinId, NewRow(c, reg, computed, confirmationBlocks, state, peak))
  }

  function Snapshot(c: Crypto, db: Database, coin: Bytes32): Result<ChannelSnapshot, HubError> {
    var row :- LoadChannel(c, db, coin);
    Success(ChannelSnapshot(coin, row.latestSequence, row.latestCheckpointHash, |db[coin].ledger|,
      row.fundingBirthHeight, row.acceptanceCutoffHeight, row.scheduledCloseHeight, row.chainState, row.lastPeakHeight))
  }

  // ---------------------------------------------------------------- the candidate state

  datatype StateCandidate = StateCandidate(
    checkpoint: LedgerCheckpoint, entries: seq<LedgerEntry>, signatures: seq<Bytes96>)

  predicate ContinuesHead(c: Crypto, coin: Bytes32, row: ChannelRow, candidate: StateCandidate) {
    && |candidate.entries| == |candidate.signatures|
    && candidate.checkpoint.fundingCoinId == coin
    && candidate.checkpoint.stateSequence == row.latestSequence + 1
    && candidate.checkpoint.previousCheckpointHash == row.latestCheckpointHash
  }

  predicate ExtendsLedger(rows: seq<LedgerRow>, candidate: StateCandidate) {
    && |candidate.entries| > |rows|
    && candidate.entries[..|rows|] == Entries(rows)
    && |candidate.signatures| >= |rows|
    && candidate.signatures[..|rows|] == Signatures(rows)
  }

  function ValidateCandidate(c: Crypto, db: Database, coin: Bytes32, row: ChannelRow, candidate: StateCandidate)
    : Verdict
  {
    var k := candidate.checkpoint;
    if !ContinuesHead(c, coin, row, candidate) then Fail(StateConflict) else
    var termsHash := Lift(TermsHash(c, row.terms));
    if termsHash.Failure? then Fail(termsHash.error)
    else if k.channelTermsHash != termsHash.value then Fail(StateConflict) else
    var rows := LoadLedger(c, db, coin);
    if rows.Failure? then Fail(rows.error)
    else if !ExtendsLedger(rows.value, candidate) then Fail(StateConflict) else
    var authorized := VerifyAuthorizations(c, row.terms, coin, candidate.entries, candidate.signatures);
    if authorized.Fail? then Fail(ProtocolFailure(authorized.error)) else
    var expected := MakeCheckpoint(c, row.terms, coin, k.stateSequence, k.previousCheckpointHash, candidate.entries);
    if expected.Failure? then Fail(ProtocolFailure(expected.error))
    else if expected.value != k then Fail(StateConflict)
    else Pass
  }

  // ---------------------------------------------------------------- preparing a reservation

  /** What the preparing transaction decides. A rejection for want of room keeps the entry index it had computed. */
  datatype Decision =
    | Reject(status: ReservationStatus, index: Option<u64>)
    | Accept(checkpoint: LedgerCheckpoint, hash: Bytes32, position: u64)

  function RejectForRoom(error: ProtocolError, index: u64): Result<Decision, HubError> {
    match error
    case LedgerFull => Success(Reject(LedgerFullStatus, Some(index)))
    case InsufficientRemainder => Success(Reject(InsufficientRemainderStatus, Some(index)))
    case _ => Failure(ProtocolFailure(error))
  }

  /** The next checkpoint for the appended ledger, checked as a candidate and hashed. */
  function AcceptCandidate(c: Crypto, db: Database, coin: Bytes32, row: ChannelRow, entries: seq<LedgerEntry>,
                           signatures: seq<Bytes96>, index: u64): Result<Decision, HubError>
  {
    if row.latestSequence + 1 >= 0x1_0000_0000_0000_0000 then
      Failure(ProtocolFailure(ArithmeticOverflow("state_sequence")))
    else
      var k :- Lift(MakeCheckpoint(c, row.terms, coin, row.latestSequence + 1, row.latestCheckpointHash, entries));
      :- ValidateCandidate(c, db, coin, row, StateCandidate(k, entries, signatures));
      var hash :- Lift(CheckpointHash(c, row.terms, k));
      Success(Accept(k, hash, index))
  }

  /** The decision on the ledger with the new entry appended. */
  function DecideLedger(c: Crypto, db: Database, coin: Bytes32, row: ChannelRow, entries: seq<LedgerEntry>,
                        signatures: seq<Bytes96>, index: u64): Result<Decision, HubError>
  {
    var totals := ValidateLedger(c, row.terms, entries);
    if totals.Failure? then RejectForRoom(totals.error, index)
    else AcceptCandidate(c, db, coin, row, entries, signatures, index)
  }

  /** The decision once the authorization is valid and the gate is open. */
  function DecideOpen(c: Crypto, db: Database, coin: Bytes32, row: ChannelRow, entry: LedgerEntry, signature: Bytes96)
    : Result<Decision, HubError>
    requires coin in db
  {
    if HasPreparedIntent(db[coin]) then Failure(PendingTransition) else
    var rows :- LoadLedger(c, db, coin);
    DecideLedger(c, db, coin, row, Entries(rows) + [entry], Signatures(rows) + [signature],
                 |rows| % 0x1_0000_0000_0000_0000)
  }

  function Decide(c: Crypto, db: Database, request: ReservationRequest, row: ChannelRow, authorization: Bytes32,
                  gated: Gated): Result<Decision, HubError>
    requires request.fundingCoinId in db
  {
    if VerifyHash(c, row.terms.userPublicKey, authorization, request.signature).Fail? then
      Success(Reject(InvalidAuthorization, None))
    else if gated.blocking.Some? && gated.blocking.value != ReservationStatus.Signed then
      Success(Reject(gated.blocking.value, None))
    else
      DecideOpen(c, db, request.fundingCoinId, row, request.entry, request.signature)
  }

  function PreparedRow(request: ReservationRequest, fingerprint: Bytes32, authorization: Bytes32, row: ChannelRow,
                       observed: u64, d: Decision): Reservation
  {
    Reservation(fingerprint, request.requestId, authorization, request.entry, request.signature, observed,
      row.acceptanceCutoffHeight, row.scheduledCloseHeight,
      if d.Accept? then ReservationStatus.Signed else d.status,
      if d.Accept? then Some(d.checkpoint.stateSequence) else None,
      if d.Accept? then Some(d.hash) else None,
      if d.Accept? then Some(d.position) else d.index,
      d.Accept?, Prepared, None)
  }

  /** The unique keys of the intents table: (coin, sequence), (coin, checkpoint hash), one prepared row per coin. */
  predicate IntentFits(ch: Channel, k: LedgerCheckpoint, hash: Bytes32) {
    && k.stateSequence !in ch.intents
    && (forall j :: j in ch.intents ==> ch.intents[j].checkpointHash != hash)
    && !HasPreparedIntent(ch)
  }

  /** The writes of the preparing transaction: the reservation row and, for an acceptance, the state intent. */
  function WritePrepared(db: Database, request: ReservationRequest, row: ChannelRow, r: Reservation, d: Decision)
    : Result<Database, HubError>
    requires request.fundingCoinId in db
  {
    var ch := db[request.fundingCoinId];
    var reserved := ch.(row := row, reservations := ch.reservations[request.entry.reservationNonce := r]);
    :- FitsColumn(r.observedPeakHeight);
    :- FitsColumn(r.acceptanceCutoffHeight);
    :- FitsColumn(r.scheduledCloseHeight);
    if d.Reject? then Success(db[request.fundingCoinId := reserved])
    else if !IntentFits(ch, d.checkpoint, d.hash) then Failure(HubError.Database("UNIQUE constraint on state intents"))
    else
      var intent := Intent(d.checkpoint.previousCheckpointHash, d.hash, d.checkpoint, r.observedPeakHeight,
                           request.entry.reservationNonce, Prepared, None, None);
      Success(db[request.fundingCoinId := reserved.(intents := ch.intents[d.checkpoint.stateSequence := intent])])
  }

  /** What the preparing transaction found: an earlier row for this nonce, or none and a new database. */
  datatype Preparation = Existing(stage: Stage) | Fresh(db: Database)

  /** The channel, the fingerprint and the authorization hash, checked in the program's order. */
  function ReadForReservation(c: Crypto, db: Database, request: ReservationRequest, key: SecretKey, now: u64)
    : (read: Result<(Bytes32, ChannelRow, Bytes32), HubError>)
    ensures read.Success? ==> request.fundingCoinId in db
  {
    var valid := CheckedHeight("now", now);
    :- valid;
    var fingerprint :- Fingerprint(c, request);
    var row :- LoadChannel(c, db, request.fundingCoinId);
    :- RequireHubKey(c, row.terms, key);
    var authorization :- Lift(AuthorizationHash(c, row.terms, request.fundingCoinId, request.entry));
    Success((fingerprint, row, authorization))
  }

  function PrepareFresh(c: Crypto, db: Database, request: ReservationRequest, gate: Gate, fingerprint: Bytes32,
                        row: ChannelRow, authorization: Bytes32): Result<Database, HubError>
    requires request.fundingCoinId in db
  {
    var (after, gated) :- EvaluateGate(row, gate);
    var d :- Decide(c, db, request, after, authorization, gated);
    WritePrepared(db, request, after,
                  PreparedRow(request, fingerprint, authorization, after, gated.observedPeakHeight, d), d)
  }

  /** A nonce that has a row is never prepared again: the same content is answered from it, other content refused. */
  function PrepareOrFind(c: Crypto, db: Database, request: ReservationRequest, gate: Gate, fingerprint: Bytes32,
                         row: ChannelRow, authorization: Bytes32): Result<Preparation, HubError>
    requires request.fundingCoinId in db
  {
    var coin, nonce := request.fundingCoinId, request.entry.reservationNonce;
    var existing :- LoadReservation(c, db, coin, nonce);
    if existing.Some? then
      :- ValidateBinding(c, existing.value, row.terms, coin, nonce);
      if existing.value.requestFingerprint != fingerprint then Failure(NonceConflict)
      else Success(Existing(existing.value.stage))
    else
      var prepared :- PrepareFresh(c, db, request, gate, fingerprint, row, authorization);
      Success(Fresh(prepared))
  }

  /** The first transaction of `reserve_internal`. A failure leaves the database as it was. */
  function Prepare(c: Crypto, db: Database, request: ReservationRequest, gate: Gate, key: SecretKey, now: u64)
    : Result<Preparation, HubError>
  {
    var (fingerprint, row, authorization) :- ReadForReservation(c, db, request, key, now);
    PrepareOrFind(c, db, request, gate, fingerprint, row, authorization)
  }

  // ---------------------------------------------------------------- finalizing: reads and signatures

  /** One call of `sign_hash`: the key and what was hashed and signed. */
  datatype Signing =
    | ResultSigned(key: SecretKey, result: ReservationResult)
    | StateSigned(key: SecretKey, terms: ChannelTerms, checkpoint: LedgerCheckpoint)

  function SignedPreimage(c: Crypto, s: Signing): Bytes {
    match s
    case ResultSigned(_, result) => ResultPreimage(result)
    case StateSigned(_, terms, checkpoint) => HubStatePreimage(CheckpointDigest(c, terms, checkpoint))
  }

  function SignatureOf(c: Crypto, s: Signing): Bytes96 {
    c.blsSign(s.key, c.sha256(SignedPreimage(c, s)))
  }

  function FindChannel(c: Crypto, db: Database, coin: Bytes32, key: SecretKey): Result<ChannelRow, HubError> {
    var row :- LoadChannel(c, db, coin);
    :- RequireHubKey(c, row.terms, key);
    Success(row)
  }

  function FindReservation(c: Crypto, db: Database, terms: ChannelTerms, coin: Bytes32, nonce: Bytes32)
    : (found: Result<Reservation, HubError>)
    ensures found.Success? ==>
              coin in db && nonce in db[coin].reservations && found.value == db[coin].reservations[nonce]
  {
    var r :- LoadReservation(c, db, coin, nonce);
    if r.None? then Failure(ReservationNotFound) else
    :- ValidateBinding(c, r.value, terms, coin, nonce);
    Success(r.value)
  }

  function BuildPackage(row: ChannelRow, coin: Bytes32, state: OfficialState, entries: seq<LedgerEntry>,
                        signatures: seq<Bytes96>): RecoveryPackage
  {
    RecoveryPackage(coin, row.fundingPuzzleReveal, row.terms.fundingAmount, row.terms, state, entries, signatures)
  }

  function MakePackage(c: Crypto, db: Database, row: ChannelRow, coin: Bytes32, r: Reservation, state: OfficialState)
    : Result<RecoveryPackage, HubError>
  {
    var rows :- LoadLedger(c, db, coin);
    var package := BuildPackage(row, coin, state, Entries(rows) + [r.entry], Signatures(rows) + [r.signature]);
    :- LiftCheck(ValidatePackage(c, package));
    Success(package)
  }

  // ---------------------------------------------------------------- finalizing: the second transaction

  /** Inserts a ledger row in the order of its primary key. */
  function InsertRow(rows: seq<LedgerRow>, row: LedgerRow): seq<LedgerRow> {
    if rows == [] || rows[|rows| - 1].entryIndex < row.entryIndex then rows + [row]
    else InsertRow(rows[..|rows| - 1], row) + [rows[|rows| - 1]]
  }

  predicate LedgerRowFits(rows: seq<LedgerRow>, row: LedgerRow) {
    forall i :: 0 <= i < |rows| ==>
      rows[i].entryIndex != row.entryIndex && rows[i].reservationNonce != row.reservationNonce
  }

  predicate StateFits(ch: Channel, sequence: u64, hash: Bytes32) {
    && sequence !in ch.states
    && (forall j :: j in ch.states ==> ch.states[j].checkpointHash != hash)
  }

  /** The five writes that append a state. */
  function AppendState(ch: Channel, r: Reservation, nonce: Bytes32, state: OfficialState, package: RecoveryPackage,
                       hash: Bytes32, index: u64): Result<Channel, HubError>
    requires state.checkpoint.stateSequence in ch.intents
  {
    var sequence := state.checkpoint.stateSequence;
    var ledgerRow := LedgerRow(index, r.entry, r.signature, nonce, sequence);
    if !StateFits(ch, sequence, hash) then Failure(HubError.Database("UNIQUE constraint on states"))
    else if !LedgerRowFits(ch.ledger, ledgerRow) then Failure(HubError.Database("UNIQUE constraint on ledger entries"))
    else
      var intent := ch.intents[sequence].(stage := Stage.Signed, hubStateSignature := Some(state.hubStateSignature),
                                          recoveryPackage := Some(package));
      Success(ch.(
        states := ch.states[sequence := StateRow(hash, state, package, r.observedPeakHeight)],
        ledger := InsertRow(ch.ledger, ledgerRow),
        row := ch.row.(latestSequence := sequence, latestCheckpointHash := hash),
        intents := ch.intents[sequence := intent]))
  }

  /** The state half of the second transaction: re-read the head, insist the state is still its successor and the
      intent still prepared, then append. */
  function CommitState(c: Crypto, db: Database, coin: Bytes32, nonce: Bytes32, r: Reservation, state: OfficialState,
                       package: RecoveryPackage): Result<Channel, HubError>
    requires coin in db
  {
    var current :- LoadChannel(c, db, coin);
    var k := state.checkpoint;
    var hash :- Lift(CheckpointHash(c, current.terms, k));
    if k.stateSequence != current.latestSequence + 1 || k.previousCheckpointHash != current.latestCheckpointHash
       || Some(hash) != r.targetCheckpointHash then Failure(StateConflict)
    else
      :- FitsColumn(k.stateSequence);
      if k.stateSequence !in db[coin].intents || db[coin].intents[k.stateSequence].checkpointHash != hash then
        Failure(HubError.Database("no such intent"))
      else if !db[coin].intents[k.stateSequence].stage.Prepared? then Failure(StateConflict)
      else if r.entryIndex.None? then Failure(Corrupt("signed reservation entry index"))
      else AppendState(db[coin], r, nonce, state, package, hash, r.entryIndex.value)
  }

  function MarkSigned(ch: Channel, nonce: Bytes32, r: Reservation, signed: SignedReservationResult): Channel {
    ch.(reservations := ch.reservations[nonce := r.(stage := Stage.Signed, signedResult := Some(signed))])
  }

  /** The second transaction: `None` when another call had already finalized the row. */
  function Commit(c: Crypto, db: Database, coin: Bytes32, nonce: Bytes32, terms: ChannelTerms, r: Reservation,
                  signed: SignedReservationResult, state: Option<(OfficialState, RecoveryPackage)>)
    : Result<Option<Database>, HubError>
  {
    var persisted :- FindReservation(c, db, terms, coin, nonce);
    if persisted.stage.Signed? then Success(None)
    else if persisted.requestFingerprint != r.requestFingerprint || persisted.targetStatus != r.targetStatus
         || persisted.targetCheckpointHash != r.targetCheckpointHash then Failure(StateConflict)
    else
      var appended :- if state.Some? then CommitState(c, db, coin, nonce, r, state.value.0, state.value.1)
                      else Success(db[coin]);
      Success(Some(db[coin := MarkSigned(appended, nonce, persisted, signed)]))
  }

  // ---------------------------------------------------------------- reading a completed reservation

  /** The signed result of a finalized row, with the sequence of the package to return beside it, if any. */
  function ReadAnswer(c: Crypto, db: Database, terms: ChannelTerms, coin: Bytes32, nonce: Bytes32)
    : Result<(SignedReservationResult, Option<u64>), HubError>
  {
    var r :- FindReservation(c, db, terms, coin, nonce);
    if !r.stage.Signed? then Failure(PendingTransition)
    else if r.signedResult.None? then Failure(Corrupt("missing signed reservation result"))
    else
      var s := r.signedResult.value;
      if ValidateResult(s.result).Fail? || ParseSignature(c, s.hubResultSignature).Fail? then
        Failure(Corrupt("signed reservation result"))
      else
        :- LiftCheck(VerifySignedResult(c, terms, s));
        if s.result != ResultFrom(r, terms, coin, nonce) then Failure(Corrupt("signed reservation result binding"))
        else Success((s, if r.ledgerWritten then r.targetStateSequence else None))
  }

  function ReadPackage(c: Crypto, db: Database, coin: Bytes32, sequence: u64): Result<RecoveryPackage, HubError> {
    var valid := FitsColumn(sequence);
    :- valid;
    if coin !in db || sequence !in db[coin].states then Failure(HubError.Database("no such state"))
    else
      var package := db[coin].states[sequence].recoveryPackage;
      if !Codec.DecodablePackage(c, package) then Failure(Corrupt("recovery package"))
      else
        :- LiftCheck(ValidatePackage(c, package));
        Success(package)
  }
}
