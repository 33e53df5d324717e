/** What is true of every stored channel, and why every step keeps it true. */
module HubInvariant {
  import opened ByteStrings
  import opened Protocol
  import opened Types
  import opened Ledgers
  import opened Packages
  import opened HubRecords

  /** What never changes about a channel. */
  datatype Identity = Identity(coin: Bytes32, terms: ChannelTerms, puzzle: Bytes)

  function IdentityOf(coin: Bytes32, row: ChannelRow): Identity {
    Identity(coin, row.terms, row.fundingPuzzleReveal)
  }

  // ---------------------------------------------------------------- the parts of the invariant

  /** The hash of state `k`: state zero's, or the one stored. */
  function HashAt(c: Crypto, id: Identity, states: map<u64, StateRow>, k: u64): Bytes32 {
    if k in states then states[k].checkpointHash else StateZeroDigest(c, id.terms, id.coin)
  }

  /** Rows are numbered from zero without gaps, in order, and make a valid, authorized ledger. */
  ghost predicate LedgerOk(c: Crypto, id: Identity, ledger: seq<LedgerRow>) {
    && ValidLedger(c, id.terms, Entries(ledger))
    && Authorized(c, id.terms, id.coin, Entries(ledger), Signatures(ledger))
    && (forall i :: 0 <= i < |ledger| ==>
          && ledger[i].entryIndex == i
          && ledger[i].stateSequence == i + 1
          && ledger[i].reservationNonce == ledger[i].entry.reservationNonce)
  }

  /** State `k` is hash-linked to its predecessor and carries the first `k` entries and signatures. */
  ghost predicate StateOk(c: Crypto, id: Identity, states: map<u64, StateRow>, ledger: seq<LedgerRow>, k: u64)
    requires k in states && 1 <= k <= |ledger|
  {
    var s := states[k];
    && s.officialState.checkpoint.stateSequence == k
    && s.officialState.checkpoint.previousCheckpointHash == HashAt(c, id, states, k - 1)
    && s.checkpointHash == CheckpointDigest(c, id.terms, s.officialState.checkpoint)
    && s.recoveryPackage ==
       RecoveryPackage(id.coin, id.puzzle, id.terms.fundingAmount, id.terms, s.officialState,
                       Entries(ledger[..k]), Signatures(ledger[..k]))
    && ValidPackage(c, s.recoveryPackage)
  }

  /** The keys are exactly one to `n`. */
  ghost predicate Numbered(keys: set<u64>, n: nat) {
    forall k: u64 :: k in keys <==> 1 <= k <= n
  }

  ghost predicate StatesOk(c: Crypto, id: Identity, states: map<u64, StateRow>, ledger: seq<LedgerRow>) {
    && Numbered(states.Keys, |ledger|)
    && (forall k: u64 {:trigger StateOk(c, id, states, ledger, k)} :: k in states ==> StateOk(c, id, states, ledger, k))
  }

  /** An intent is bound to the one reservation that targets it. */
  ghost predicate IntentBound(c: Crypto, id: Identity, intents: map<u64, Intent>,
                              reservations: map<Bytes32, Reservation>, k: u64)
    requires k in intents
  {
    var i := intents[k];
    && i.checkpoint.stateSequence == k
    && i.checkpoint.fundingCoinId == id.coin
    && i.previousCheckpointHash == i.checkpoint.previousCheckpointHash
    && i.checkpointHash == CheckpointDigest(c, id.terms, i.checkpoint)
    && i.reservationNonce in reservations
    && IsSignedTarget(reservations[i.reservationNonce])
    && reservations[i.reservationNonce].targetStateSequence == Some(k)
    && reservations[i.reservationNonce].observedPeakHeight == i.commitHeight
  }

  /** A signed intent mirrors its state row. */
  ghost predicate SignedIntent(i: Intent, s: StateRow, l: LedgerRow) {
    && i.stage.Signed?
    && i.checkpoint == s.officialState.checkpoint
    && i.checkpointHash == s.checkpointHash
    && i.commitHeight == s.commitHeight
    && i.hubStateSignature == Some(s.officialState.hubStateSignature)
    && i.recoveryPackage == Some(s.recoveryPackage)
    && i.reservationNonce == l.reservationNonce
  }

  /** A prepared intent is the checkpoint of the ledger with its reservation's entry appended. */
  ghost predicate PreparedIntent(c: Crypto, id: Identity, i: Intent, head: Bytes32, ledger: seq<LedgerRow>,
                                 r: Reservation)
  {
    && i.stage.Prepared? && i.hubStateSignature.None? && i.recoveryPackage.None?
    && |ledger| < 64
    && ValidLedger(c, id.terms, Entries(ledger) + [r.entry])
    && i.checkpoint == CheckpointOf(c, id.terms, id.coin, |ledger| + 1, head, Entries(ledger) + [r.entry])
  }

  ghost predicate IntentOk(c: Crypto, id: Identity, intents: map<u64, Intent>, states: map<u64, StateRow>,
                           ledger: seq<LedgerRow>, reservations: map<Bytes32, Reservation>, k: u64)
    requires k in intents
  {
    && 1 <= k <= |ledger| + 1
    && IntentBound(c, id, intents, reservations, k)
    && (if k <= |ledger|
        then k in states && SignedIntent(intents[k], states[k], ledger[k - 1])
        else PreparedIntent(c, id, intents[k], HashAt(c, id, states, k - 1), ledger,
                            reservations[intents[k].reservationNonce]))
  }

  ghost predicate HashesApart(intents: map<u64, Intent>) {
    forall j: u64, k: u64 ::
      j in intents && k in intents && intents[j].checkpointHash == intents[k].checkpointHash ==> j == k
  }

  ghost predicate IntentsOk(c: Crypto, id: Identity, intents: map<u64, Intent>, states: map<u64, StateRow>,
                            ledger: seq<LedgerRow>, reservations: map<Bytes32, Reservation>)
  {
    && (forall k: u64 :: 1 <= k <= |ledger| ==> k in intents)
    && (forall k: u64 {:trigger IntentOk(c, id, intents, states, ledger, reservations, k)} :: k in intents ==>
        IntentOk(c, id, intents, states, ledger, reservations, k))
    && HashesApart(intents)
  }

  /** The columns every reservation row gets right, whatever was decided. */
  ghost predicate RowOk(c: Crypto, id: Identity, r: Reservation, nonce: Bytes32) {
    && r.entry.reservationNonce == nonce
    && ValidateEntry(c, r.entry).Pass?
    && ParseSignature(c, r.signature).Pass?
    && r.requestFingerprint == FingerprintDigest(c, r.entry, r.signature)
    && r.authorizationHash == AuthorizationDigest(c, id.terms, id.coin, r.entry)
    && r.observedPeakHeight <= MAX_PROTOCOL_U64
    && r.acceptanceCutoffHeight <= MAX_PROTOCOL_U64
    && r.scheduledCloseHeight <= MAX_PROTOCOL_U64
    && (r.stage.Prepared? ==> r.signedResult.None?)
    && (r.stage.Signed? ==> r.signedResult.Some? && ResultOk(c, id, r, nonce, r.signedResult.value))
  }

  ghost predicate ResultOk(c: Crypto, id: Identity, r: Reservation, nonce: Bytes32, s: SignedReservationResult) {
    && s.result == ResultFrom(r, id.terms, id.coin, nonce)
    && VerifySignedResult(c, id.terms, s).Pass?
  }

  /** A rejection for want of room is written with an entry index, which no later read accepts. */
  predicate Stuck(r: Reservation) {
    && (r.targetStatus == LedgerFullStatus || r.targetStatus == InsufficientRemainderStatus)
    && r.stage.Prepared?
  }

  ghost predicate RejectedOk(r: Reservation) {
    && r.targetStateSequence.None? && r.targetCheckpointHash.None? && !r.ledgerWritten
    && (r.entryIndex.Some? <==> r.targetStatus == LedgerFullStatus || r.targetStatus == InsufficientRemainderStatus)
    && (r.entryIndex.Some? ==> r.stage.Prepared?)
  }

  /** An accepted reservation owns one intent; it is signed exactly when its state is committed. */
  ghost predicate AcceptedOk(c: Crypto, id: Identity, r: Reservation, nonce: Bytes32, intents: map<u64, Intent>,
                             ledger: seq<LedgerRow>)
  {
    && HasTargets(r)
    && r.targetStateSequence.value in intents
    && (var k := r.targetStateSequence.value;
        && 1 <= k <= 64
        && intents[k].reservationNonce == nonce
        && r.targetCheckpointHash.value == intents[k].checkpointHash
        && r.entryIndex.value == k - 1
        && (r.stage.Signed? <==> k <= |ledger|)
        && (k <= |ledger| ==> ledger[k - 1].entry == r.entry && ledger[k - 1].signature == r.signature))
    && VerifyAuthorization(c, id.terms, id.coin, r.entry, r.signature).Pass?
    && r.observedPeakHeight < r.acceptanceCutoffHeight
    && r.observedPeakHeight + id.terms.freezeBlocks < r.scheduledCloseHeight
  }

  ghost predicate ReservationOk(c: Crypto, id: Identity, r: Reservation, nonce: Bytes32, intents: map<u64, Intent>,
                                ledger: seq<LedgerRow>)
  {
    && RowOk(c, id, r, nonce)
    && (if IsSignedTarget(r) then AcceptedOk(c, id, r, nonce, intents, ledger) else RejectedOk(r))
  }

  ghost predicate ReservationsOk(c: Crypto, id: Identity, reservations: map<Bytes32, Reservation>,
                                 intents: map<u64, Intent>, ledger: seq<LedgerRow>)
  {
    forall nonce {:trigger ReservationOk(c, id, reservations[nonce], nonce, intents, ledger)} ::
      nonce in reservations ==> ReservationOk(c, id, reservations[nonce], nonce, intents, ledger)
  }

  ghost predicate RowBound(c: Crypto, coin: Bytes32, row: ChannelRow) {
    && ValidTerms(c, row.terms)
    && row.termsHash == TermsDigest(c, row.terms)
    && c.treeHash(row.fundingPuzzleReveal) == Some(row.fundingPuzzleHash)
    && |row.fundingPuzzleReveal| <= MAX_CANONICAL_BLOB_BYTES
  }

  ghost predicate HeadOk(c: Crypto, id: Identity, row: ChannelRow, states: map<u64, StateRow>, ledger: seq<LedgerRow>) {
    row.latestSequence == |ledger| && row.latestCheckpointHash == HashAt(c, id, states, row.latestSequence)
  }

  ghost predicate ChannelOk(c: Crypto, coin: Bytes32, ch: Channel) {
    var id := IdentityOf(coin, ch.row);
    && RowBound(c, coin, ch.row)
    && LedgerOk(c, id, ch.ledger)
    && HeadOk(c, id, ch.row, ch.states, ch.ledger)
    && StatesOk(c, id, ch.states, ch.ledger)
    && IntentsOk(c, id, ch.intents, ch.states, ch.ledger, ch.reservations)
    && ReservationsOk(c, id, ch.reservations, ch.intents, ch.ledger)
  }

  ghost predicate DatabaseOk(c: Crypto, db: Database) {
    forall coin {:trigger ChannelOk(c, coin, db[coin])} :: coin in db ==> ChannelOk(c, coin, db[coin])
  }
}
