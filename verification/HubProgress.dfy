/** Every transaction keeps the whole database well-formed, and only ever adds to it. */
module HubProgress {
  import opened ByteStrings
  import opened Protocol
  import opened Types
  import opened HubRecords
  import opened HubGate
  import opened HubSteps
  import opened HubInvariant
  import opened HubSafety
  import opened HubReads
  import opened HubDecide

  // ---------------------------------------------------------------- what may change

  /** A row is never rewritten: it stays, or it is signed. */
  predicate Later(before: Reservation, after: Reservation) {
    || after == before
    || (before.stage.Prepared? && after == before.(stage := Stage.Signed, signedResult := after.signedResult))
  }

  predicate SameIntent(before: Intent, after: Intent) {
    && after.checkpoint == before.checkpoint && after.checkpointHash == before.checkpointHash
    && after.reservationNonce == before.reservationNonce && (before.stage.Signed? ==> after == before)
  }

  /** What one channel may become. */
  ghost predicate Extended(before: Channel, after: Channel) {
    && before.row.terms == after.row.terms && before.row.fundingPuzzleReveal == after.row.fundingPuzzleReveal
    && CutoffKept(before.row, after.row)
    && |before.ledger| <= |after.ledger| && after.ledger[..|before.ledger|] == before.ledger
    && (forall k :: k in before.states ==> k in after.states && after.states[k] == before.states[k])
    && (forall k :: k in before.intents ==> k in after.intents && SameIntent(before.intents[k], after.intents[k]))
    && (forall m :: m in before.reservations ==>
          m in after.reservations && Later(before.reservations[m], after.reservations[m]))
  }

  ghost predicate Grows(before: Database, after: Database) {
    forall coin {:trigger after[coin]} {:trigger before[coin]} :: coin in before ==>
      coin in after && Extended(before[coin], after[coin])
  }

  lemma ExtendedTransitive(a: Channel, b: Channel, d: Channel)
    requires Extended(a, b) && Extended(b, d)
    ensures Extended(a, d)
  {
    assert d.ledger[..|a.ledger|] == d.ledger[..|b.ledger|][..|a.ledger|];
  }

  lemma GrowsTransitive(a: Database, b: Database, d: Database)
    requires Grows(a, b) && Grows(b, d)
    ensures Grows(a, d)
  {
    forall coin | coin in a ensures coin in d && Extended(a[coin], d[coin]) {
      ExtendedTransitive(a[coin], b[coin], d[coin]);
    }
  }

  lemma ExtendedReflexive(ch: Channel)
    ensures Extended(ch, ch)
  {
  }

  lemma OneChannelOk(c: Crypto, db: Database, coin: Bytes32, ch: Channel)
    requires DatabaseOk(c, db) && ChannelOk(c, coin, ch)
    ensures DatabaseOk(c, db[coin := ch])
  {
    var updated := db[coin := ch];
    forall other | other in updated ensures ChannelOk(c, other, updated[other]) {
      if other != coin {
        assert ChannelOk(c, other, db[other]);
      }
    }
  }

  lemma OneChannelGrows(db: Database, coin: Bytes32, ch: Channel)
    requires coin in db ==> Extended(db[coin], ch)
    ensures Grows(db, db[coin := ch])
  {
    var updated := db[coin := ch];
    forall other | other in db ensures other in updated && Extended(db[other], updated[other]) {
      ExtendedReflexive(db[other]);
    }
  }

  /** Replacing one channel by an extension of it. */
  lemma OneChannelChanges(c: Crypto, db: Database, coin: Bytes32, ch: Channel)
    requires DatabaseOk(c, db) && ChannelOk(c, coin, ch) && (coin in db ==> Extended(db[coin], ch))
    ensures DatabaseOk(c, db[coin := ch]) && Grows(db, db[coin := ch])
  {
    OneChannelOk(c, db, coin, ch);
    OneChannelGrows(db, coin, ch);
  }

  // ---------------------------------------------------------------- registration

  lemma NewRowBound(c: Crypto, reg: ChannelRegistration, confirmationBlocks: u64, state: ChainState, peak: Option<Peak>)
    requires ValidateRegistration(c, reg).Success?
    ensures RowBound(c, reg.fundingCoinId,
                     NewRow(c, reg, ValidateRegistration(c, reg).value, confirmationBlocks, state, peak))
  {
  }

  lemma RegisterInserts(c: Crypto, db: Database, reg: ChannelRegistration, now: u64, confirmationBlocks: u64,
                        state: ChainState, peak: Option<Peak>)
    requires Register(c, db, reg, now, confirmationBlocks, state, peak).Success?
    ensures ValidateRegistration(c, reg).Success?
    ensures Register(c, db, reg, now, confirmationBlocks, state, peak).value ==
            if reg.fundingCoinId in db then db
            else db[reg.fundingCoinId :=
              Channel(NewRow(c, reg, ValidateRegistration(c, reg).value, confirmationBlocks, state, peak), map[], map[],
                      [], map[])]
  {
  }

  /** Registering adds an empty channel, or changes nothing at all when the coin is already registered. */
  lemma RegisterKeeps(c: Crypto, db: Database, reg: ChannelRegistration, now: u64, confirmationBlocks: u64,
                      state: ChainState, peak: Option<Peak>)
    requires DatabaseOk(c, db) && Register(c, db, reg, now, confirmationBlocks, state, peak).Success?
    ensures var after := Register(c, db, reg, now, confirmationBlocks, state, peak).value;
            DatabaseOk(c, after) && Grows(db, after) && (reg.fundingCoinId in db ==> after == db)
  {
    RegisterInserts(c, db, reg, now, confirmationBlocks, state, peak);
    if reg.fundingCoinId in db {
      DatabaseGrowsReflexive(db);
    } else {
      var row := NewRow(c, reg, ValidateRegistration(c, reg).value, confirmationBlocks, state, peak);
      NewRowBound(c, reg, confirmationBlocks, state, peak);
      NewChannelOk(c, reg.fundingCoinId, row);
      OneChannelChanges(c, db, reg.fundingCoinId, Channel(row, map[], map[], [], map[]));
    }
  }

  lemma DatabaseGrowsReflexive(db: Database)
    ensures Grows(db, db)
  {
    forall coin | coin in db ensures Extended(db[coin], db[coin]) {
      ExtendedReflexive(db[coin]);
    }
  }

  // ---------------------------------------------------------------- preparation

  lemma PreparedRowOk(c: Crypto, id: Identity, request: ReservationRequest, row: ChannelRow, observed: u64, d: Decision)
    requires ValidTerms(c, id.terms) && row.terms == id.terms && request.fundingCoinId == id.coin
    requires ValidateEntry(c, request.entry).Pass? && ParseSignature(c, request.signature).Pass?
    requires observed <= MAX_PROTOCOL_U64
    requires row.acceptanceCutoffHeight <= MAX_PROTOCOL_U64 && row.scheduledCloseHeight <= MAX_PROTOCOL_U64
    ensures RowOk(c, id,
                  PreparedRow(request, FingerprintDigest(c, request.entry, request.signature),
                              AuthorizationDigest(c, id.terms, id.coin, request.entry), row, observed, d),
                  request.entry.reservationNonce)
  {
  }

  function NewIntent(r: Reservation, k: LedgerCheckpoint, hash: Bytes32): Intent {
    Intent(k.previousCheckpointHash, hash, k, r.observedPeakHeight, r.entry.reservationNonce, Prepared, None, None)
  }

  lemma WrittenAcceptance(c: Crypto, id: Identity, ch: Channel, request: ReservationRequest, row: ChannelRow,
                          r: Reservation, d: Decision, fingerprint: Bytes32, authorization: Bytes32, observed: u64)
    requires d.Accept? && Decided(c, id, ch, row.latestCheckpointHash, request.entry, request.signature, d)
    requires r == PreparedRow(request, fingerprint, authorization, row, observed, d)
    requires RowOk(c, id, r, request.entry.reservationNonce)
    requires row.latestCheckpointHash == HashAt(c, id, ch.states, |ch.ledger|)
    requires observed < row.acceptanceCutoffHeight && observed + id.terms.freezeBlocks < row.scheduledCloseHeight
    ensures Acceptable(c, id, ch, request.entry.reservationNonce, r, NewIntent(r, d.checkpoint, d.hash))
  {
  }

  lemma RowAddedExtends(ch: Channel, row: ChannelRow, nonce: Bytes32, r: Reservation)
    requires SameIdentity(ch.row, row) && CutoffKept(ch.row, row) && nonce !in ch.reservations
    ensures Extended(ch, ch.(row := row, reservations := ch.reservations[nonce := r]))
  {
  }

  lemma IntentAddedExtends(ch: Channel, row: ChannelRow, nonce: Bytes32, r: Reservation, n: u64, i: Intent)
    requires SameIdentity(ch.row, row) && CutoffKept(ch.row, row) && nonce !in ch.reservations && n !in ch.intents
    ensures Extended(ch, ch.(row := row, reservations := ch.reservations[nonce := r], intents := ch.intents[n := i]))
  {
  }

  /** What the reads of a fresh preparation have established. */
  ghost predicate ReadyToPrepare(c: Crypto, db: Database, request: ReservationRequest, row: ChannelRow,
                                 fingerprint: Bytes32, authorization: Bytes32)
  {
    var coin := request.fundingCoinId;
    && coin in db && ChannelOk(c, coin, db[coin]) && row == db[coin].row && HeightsBind(row)
    && request.entry.reservationNonce !in db[coin].reservations
    && ValidateEntry(c, request.entry).Pass? && ParseSignature(c, request.signature).Pass?
    && fingerprint == FingerprintDigest(c, request.entry, request.signature)
    && AuthorizationHash(c, row.terms, coin, request.entry) == Success(authorization)
    && authorization == AuthorizationDigest(c, row.terms, coin, request.entry)
  }

  lemma ReservationIsRead(c: Crypto, db: Database, request: ReservationRequest, key: SecretKey, now: u64)
    requires ReadForReservation(c, db, request, key, now).Success?
    ensures var (fingerprint, row, authorization) := ReadForReservation(c, db, request, key, now).value;
            && LoadChannel(c, db, request.fundingCoinId) == Success(row)
            && c.publicKey(key) == row.terms.hubStatePublicKeyA
            && ValidateEntry(c, request.entry).Pass? && ParseSignature(c, request.signature).Pass?
            && fingerprint == FingerprintDigest(c, request.entry, request.signature)
            && AuthorizationHash(c, row.terms, request.fundingCoinId, request.entry) == Success(authorization)
            && authorization == AuthorizationDigest(c, row.terms, request.fundingCoinId, request.entry)
  {
  }

  lemma FreshIsUnread(c: Crypto, db: Database, request: ReservationRequest, gate: Gate, fingerprint: Bytes32,
                      row: ChannelRow, authorization: Bytes32, after: Database)
    requires request.fundingCoinId in db
    requires PrepareOrFind(c, db, request, gate, fingerprint, row, authorization) == Success(Fresh(after))
    ensures LoadReservation(c, db, request.fundingCoinId, request.entry.reservationNonce) == Success(None)
    ensures PrepareFresh(c, db, request, gate, fingerprint, row, authorization) == Success(after)
  {
  }

  lemma FreshPreparation(c: Crypto, db: Database, request: ReservationRequest, gate: Gate, key: SecretKey, now: u64)
    requires Prepare(c, db, request, gate, key, now).Success? && Prepare(c, db, request, gate, key, now).value.Fresh?
    ensures ReadForReservation(c, db, request, key, now).Success? && request.fundingCoinId in db
    ensures LoadReservation(c, db, request.fundingCoinId, request.entry.reservationNonce) == Success(None)
    ensures var (fingerprint, row, authorization) := ReadForReservation(c, db, request, key, now).value;
            PrepareFresh(c, db, request, gate, fingerprint, row, authorization)
            == Success(Prepare(c, db, request, gate, key, now).value.db)
  {
    var (fingerprint, row, authorization) := ReadForReservation(c, db, request, key, now).value;
    FreshIsUnread(c, db, request, gate, fingerprint, row, authorization,
                  Prepare(c, db, request, gate, key, now).value.db);
  }

  lemma PreparationReads(c: Crypto, db: Database, request: ReservationRequest, gate: Gate, key: SecretKey, now: u64)
    requires DatabaseOk(c, db)
    requires Prepare(c, db, request, gate, key, now).Success? && Prepare(c, db, request, gate, key, now).value.Fresh?
    ensures request.fundingCoinId in db && ReadForReservation(c, db, request, key, now).Success?
    ensures var (fingerprint, row, authorization) := ReadForReservation(c, db, request, key, now).value;
            ReadyToPrepare(c, db, request, row, fingerprint, authorization)
  {
    var coin := request.fundingCoinId;
    FreshPreparation(c, db, request, gate, key, now);
    ReservationIsRead(c, db, request, key, now);
    assert ChannelOk(c, coin, db[coin]);
    ChannelLoadsIff(c, db, coin);
    ReservationLoads(c, db, coin, request.entry.reservationNonce);
  }

  /** The writes of a preparation, given what the decision promised. */
  lemma WritesKeep(c: Crypto, db: Database, request: ReservationRequest, row: ChannelRow, d: Decision,
                   fingerprint: Bytes32, authorization: Bytes32, observed: u64)
    requires DatabaseOk(c, db) && request.fundingCoinId in db
    requires ReadyToPrepare(c, db, request, db[request.fundingCoinId].row, fingerprint, authorization)
    requires SameIdentity(db[request.fundingCoinId].row, row) && CutoffKept(db[request.fundingCoinId].row, row)
    requires Decided(c, IdentityOf(request.fundingCoinId, row), db[request.fundingCoinId], row.latestCheckpointHash,
                     request.entry, request.signature, d)
    requires d.Accept? ==>
               observed < row.acceptanceCutoffHeight && observed + row.terms.freezeBlocks < row.scheduledCloseHeight
    requires WritePrepared(db, request, row, PreparedRow(request, fingerprint, authorization, row, observed, d),
                           d).Success?
    ensures var after := WritePrepared(db, request, row,
                                       PreparedRow(request, fingerprint, authorization, row, observed, d), d).value;
            DatabaseOk(c, after) && Grows(db, after)
  {
    var coin, nonce := request.fundingCoinId, request.entry.reservationNonce;
    var ch, id, r := db[coin], IdentityOf(coin, row),
        PreparedRow(request, fingerprint, authorization, row, observed, d);
    PreparedRowOk(c, id, request, row, observed, d);
    if d.Reject? {
      RowWritten(c, coin, ch, row, nonce, r);
      RowAddedExtends(ch, row, nonce, r);
      OneChannelChanges(c, db, coin, ch.(row := row, reservations := ch.reservations[nonce := r]));
    } else {
      var n: u64, i := |ch.ledger| + 1, NewIntent(r, d.checkpoint, d.hash);
      WrittenAcceptance(c, id, ch, request, row, r, d, fingerprint, authorization, observed);
      AcceptancePrepared(c, coin, ch, row, nonce, r, i);
      IntentAddedExtends(ch, row, nonce, r, n, i);
      OneChannelChanges(c, db, coin,
                        ch.(row := row, reservations := ch.reservations[nonce := r], intents := ch.intents[n := i]));
    }
  }

  lemma FreshWrites(c: Crypto, db: Database, request: ReservationRequest, gate: Gate, fingerprint: Bytes32,
                    row: ChannelRow, authorization: Bytes32)
    requires request.fundingCoinId in db && PrepareFresh(c, db, request, gate, fingerprint, row, authorization).Success?
    ensures EvaluateGate(row, gate).Success?
    ensures var (after, gated) := EvaluateGate(row, gate).value;
            && Decide(c, db, request, after, authorization, gated).Success?
            && (var d := Decide(c, db, request, after, authorization, gated).value;
                WritePrepared(db, request, after,
                              PreparedRow(request, fingerprint, authorization, after, gated.observedPeakHeight, d), d)
                == PrepareFresh(c, db, request, gate, fingerprint, row, authorization))
  {
  }

  lemma FreshKeeps(c: Crypto, db: Database, request: ReservationRequest, gate: Gate, fingerprint: Bytes32,
                   row: ChannelRow, authorization: Bytes32)
    requires DatabaseOk(c, db) && ReadyToPrepare(c, db, request, row, fingerprint, authorization)
    requires PrepareFresh(c, db, request, gate, fingerprint, row, authorization).Success?
    ensures var after := PrepareFresh(c, db, request, gate, fingerprint, row, authorization).value;
            DatabaseOk(c, after) && Grows(db, after)
  {
    FreshWrites(c, db, request, gate, fingerprint, row, authorization);
    var (after, gated) := EvaluateGate(row, gate).value;
    GateKeepsCutoff(row, gate);
    TermsFacts(c, row.terms);
    if gated.blocking.Some? {
      GateStatuses(row, gate);
    } else {
      OpenGateIsBeforeFreeze(row, gate);
    }
    DecideDecides(c, db, request, after, authorization, gated);
    var d := Decide(c, db, request, after, authorization, gated).value;
    WritesKeep(c, db, request, after, d, fingerprint, authorization, gated.observedPeakHeight);
  }

  /** The first transaction keeps the database well-formed and only adds to it. */
  lemma PrepareKeeps(c: Crypto, db: Database, request: ReservationRequest, gate: Gate, key: SecretKey, now: u64)
    requires DatabaseOk(c, db)
    requires Prepare(c, db, request, gate, key, now).Success? && Prepare(c, db, request, gate, key, now).value.Fresh?
    ensures var after := Prepare(c, db, request, gate, key, now).value.db;
            DatabaseOk(c, after) && Grows(db, after)
  {
    FreshPreparation(c, db, request, gate, key, now);
    PreparationReads(c, db, request, gate, key, now);
    var (fingerprint, row, authorization) := ReadForReservation(c, db, request, key, now).value;
    FreshKeeps(c, db, request, gate, fingerprint, row, authorization);
  }
}
