/** What the HUB takes in: when a registration and when the first transaction of a reservation succeed, said of the
    request, the snapshots and the stored channel alone. */
module HubAdmissions {
  import opened ByteStrings
  import opened Protocol
  import opened Types
  import opened Ledgers
  import opened Packages
  import opened HubRecords
  import opened HubGate
  import opened HubSteps
  import opened HubInvariant
  import opened HubReads
  import opened HubDecide
  import opened HubProgress
  import opened HubMachine
  import opened HubPeaks
  import opened HubAnswers
  import HubSafety
  import HubHistory

  // ---------------------------------------------------------------- registration

  /** Valid terms, a puzzle that hashes, and heights that stay protocol integers. */
  predicate Registrable(c: Crypto, reg: ChannelRegistration) {
    && ValidTerms(c, reg.terms)
    && |reg.fundingPuzzleReveal| <= 1_048_576 && c.treeHash(reg.fundingPuzzleReveal).Some?
    && Fits(reg.fundingBirthHeight)
    && reg.fundingBirthHeight + reg.terms.acceptanceBlocks <= MAX_PROTOCOL_U64
    && reg.fundingBirthHeight + reg.terms.closeDelayBlocks <= MAX_PROTOCOL_U64
  }

  /** The row of a new channel: its terms, its heights, what the chain showed, and state zero. */
  predicate IsNewRow(c: Crypto, row: ChannelRow, reg: ChannelRegistration, confirmationBlocks: u64, state: ChainState,
                     peak: Option<Peak>)
  {
    && row.terms == reg.terms && row.termsHash == TermsDigest(c, reg.terms)
    && row.fundingPuzzleReveal == reg.fundingPuzzleReveal
    && c.treeHash(reg.fundingPuzzleReveal) == Some(row.fundingPuzzleHash)
    && row.fundingBirthHeight == reg.fundingBirthHeight
    && row.acceptanceCutoffHeight == reg.fundingBirthHeight + reg.terms.acceptanceBlocks
    && row.scheduledCloseHeight == reg.fundingBirthHeight + reg.terms.closeDelayBlocks
    && row.confirmationBlocks == confirmationBlocks
    && row.chainState == state && (row.activated <==> state == Active)
    && row.lastPeakHeight == (match peak case Some(p) => Some(p.height) case None => None)
    && row.lastPeakHash == (match peak case Some(p) => Some(p.headerHash) case None => None)
    && row.latestSequence == 0 && row.latestCheckpointHash == StateZeroDigest(c, reg.terms, reg.fundingCoinId)
  }

  /** What is stored under a coin is what this registration asks for, heights unmoved. */
  predicate AsRegistered(row: ChannelRow, reg: ChannelRegistration, confirmationBlocks: u64) {
    && row.terms == reg.terms && row.fundingPuzzleReveal == reg.fundingPuzzleReveal
    && row.fundingBirthHeight == reg.fundingBirthHeight
    && row.acceptanceCutoffHeight == reg.fundingBirthHeight + reg.terms.acceptanceBlocks
    && row.scheduledCloseHeight == reg.fundingBirthHeight + reg.terms.closeDelayBlocks
    && row.confirmationBlocks == confirmationBlocks
  }

  lemma RegistrableIff(c: Crypto, reg: ChannelRegistration)
    ensures ValidateRegistration(c, reg).Success? <==> Registrable(c, reg)
    ensures ValidateRegistration(c, reg).Success? ==>
              ValidateRegistration(c, reg).value ==
              (c.treeHash(reg.fundingPuzzleReveal).value, reg.fundingBirthHeight + reg.terms.acceptanceBlocks,
               reg.fundingBirthHeight + reg.terms.closeDelayBlocks)
  {
  }

  lemma NewRowIs(c: Crypto, reg: ChannelRegistration, confirmationBlocks: u64, state: ChainState, peak: Option<Peak>)
    requires ValidateRegistration(c, reg).Success?
    ensures IsNewRow(c, NewRow(c, reg, ValidateRegistration(c, reg).value, confirmationBlocks, state, peak), reg,
                     confirmationBlocks, state, peak)
  {
    RegistrableIff(c, reg);
  }

  /** What inserting a channel comes to, on a well-formed store. */
  lemma InsertOutcome(c: Crypto, db: Database, coin: Bytes32, asked: ChannelRow)
    requires DatabaseOk(c, db) && RowBound(c, coin, asked) && HeightsBind(asked)
    requires asked.latestSequence == 0 && asked.latestCheckpointHash == StateZeroDigest(c, asked.terms, coin)
    ensures coin !in db ==>
              InsertChannel(c, db, coin, asked) == Success(db[coin := Channel(asked, map[], map[], [], map[])])
    ensures coin in db && !HeightsBind(db[coin].row) ==> InsertChannel(c, db, coin, asked).Failure?
    ensures coin in db && HeightsBind(db[coin].row) ==>
              InsertChannel(c, db, coin, asked) ==
              if Registered(c, db[coin].row, asked) then Success(db) else Failure(ChannelConflict)
  {
    if coin in db {
      assert ChannelOk(c, coin, db[coin]);
      ChannelLoadsIff(c, db, coin);
    } else {
      var inserted := db[coin := Channel(asked, map[], map[], [], map[])];
      HubSafety.NewChannelOk(c, coin, asked);
      ChannelLoadsIff(c, inserted, coin);
    }
  }

  lemma RegisteredIff(c: Crypto, coin: Bytes32, ch: Channel, reg: ChannelRegistration, asked: ChannelRow,
                      confirmationBlocks: u64, state: ChainState, peak: Option<Peak>)
    requires ChannelOk(c, coin, ch) && coin == reg.fundingCoinId
    requires IsNewRow(c, asked, reg, confirmationBlocks, state, peak)
    ensures Registered(c, ch.row, asked) <==> AsRegistered(ch.row, reg, confirmationBlocks)
  {
    HubHistory.HeadParts(c, coin, ch);
    assert 0 as u64 in ch.states.Keys <==> 1 <= 0;
  }

  /** A registration succeeds exactly when it is registrable, its numbers fit, and the coin is new or was registered
      just so and has not moved since. It then adds one empty channel, or changes nothing. */
  lemma RegisterSucceedsIff(c: Crypto, db: Database, reg: ChannelRegistration, now: u64, confirmationBlocks: u64,
                            state: ChainState, peak: Option<Peak>)
    requires DatabaseOk(c, db)
    ensures var r, coin := Register(c, db, reg, now, confirmationBlocks, state, peak), reg.fundingCoinId;
            && (r.Success? <==>
                && Registrable(c, reg) && Fits(now) && Fits(confirmationBlocks)
                && (peak.Some? ==> Fits(peak.value.height))
                && (coin in db ==> HeightsBind(db[coin].row) && AsRegistered(db[coin].row, reg, confirmationBlocks)))
            && (r.Success? && coin in db ==> r.value == db)
            && (r.Success? && coin !in db ==>
                  && coin in r.value && r.value == db[coin := r.value[coin]]
                  && r.value[coin] == Channel(r.value[coin].row, map[], map[], [], map[])
                  && IsNewRow(c, r.value[coin].row, reg, confirmationBlocks, state, peak))
  {
    RegistrableIff(c, reg);
    if Registrable(c, reg) && Fits(now) && Fits(confirmationBlocks) && (peak.Some? ==> Fits(peak.value.height)) {
      var asked := NewRow(c, reg, ValidateRegistration(c, reg).value, confirmationBlocks, state, peak);
      NewRowIs(c, reg, confirmationBlocks, state, peak);
      NewRowBound(c, reg, confirmationBlocks, state, peak);
      RegisterReaches(c, db, reg, now, confirmationBlocks, state, peak);
      InsertOutcome(c, db, reg.fundingCoinId, asked);
      if reg.fundingCoinId in db {
        assert ChannelOk(c, reg.fundingCoinId, db[reg.fundingCoinId]);
        RegisteredIff(c, reg.fundingCoinId, db[reg.fundingCoinId], reg, asked, confirmationBlocks, state, peak);
      }
    } else {
      RegisterRefuses(c, db, reg, now, confirmationBlocks, state, peak);
    }
  }

  lemma RegisterReaches(c: Crypto, db: Database, reg: ChannelRegistration, now: u64, confirmationBlocks: u64,
                        state: ChainState, peak: Option<Peak>)
    requires ValidateRegistration(c, reg).Success? && Fits(now) && Fits(confirmationBlocks)
    requires peak.Some? ==> Fits(peak.value.height)
    ensures Register(c, db, reg, now, confirmationBlocks, state, peak) ==
            InsertChannel(c, db, reg.fundingCoinId,
                          NewRow(c, reg, ValidateRegistration(c, reg).value, confirmationBlocks, state, peak))
  {
  }

  lemma RegisterRefuses(c: Crypto, db: Database, reg: ChannelRegistration, now: u64, confirmationBlocks: u64,
                        state: ChainState, peak: Option<Peak>)
    requires ValidateRegistration(c, reg).Failure? || !Fits(now) || !Fits(confirmationBlocks)
             || (peak.Some? && !Fits(peak.value.height))
    ensures Register(c, db, reg, now, confirmationBlocks, state, peak).Failure?
  {
  }

  /** A snapshot repeats the stored channel, field by field. */
  lemma SnapshotSays(c: Crypto, db: Database, coin: Bytes32)
    requires coin in db && ChannelOk(c, coin, db[coin])
    ensures Snapshot(c, db, coin).Success? <==> HeightsBind(db[coin].row)
    ensures Snapshot(c, db, coin).Success? ==>
              var s, row := Snapshot(c, db, coin).value, db[coin].row;
              && s.fundingCoinId == coin && s.latestSequence == |db[coin].ledger| == s.entryCount
              && s.latestCheckpointHash == row.latestCheckpointHash
              && s.fundingBirthHeight == row.fundingBirthHeight
              && s.acceptanceCutoffHeight == row.acceptanceCutoffHeight
              && s.scheduledCloseHeight == row.scheduledCloseHeight
              && s.chainState == row.chainState && s.lastPeakHeight == row.lastPeakHeight
  {
    ChannelLoadsIff(c, db, coin);
    HubHistory.HeadParts(c, coin, db[coin]);
  }

  // ---------------------------------------------------------------- the first transaction

  /** The user's key signed this entry for this channel. */
  predicate Authorizes(c: Crypto, ch: Channel, request: ReservationRequest) {
    VerifyAuthorization(c, ch.row.terms, request.fundingCoinId, request.entry, request.signature).Pass?
  }

  /** The checkpoint an acceptance would prepare. */
  ghost function NextCheckpoint(c: Crypto, ch: Channel, request: ReservationRequest): LedgerCheckpoint
    requires |ch.ledger| < 64 && Total(Entries(ch.ledger)) + request.entry.amount <= ch.row.terms.fundingAmount
  {
    TotalOfAppend(Entries(ch.ledger), request.entry);
    CheckpointOf(c, ch.row.terms, request.fundingCoinId, |ch.ledger| + 1, ch.row.latestCheckpointHash,
                 Entries(ch.ledger) + [request.entry])
  }

  /** An authorized request through an open gate: no state is being prepared; the ledger is full, or the total is a
      protocol integer; and if it fits the funding too, its checkpoint's hash is no stored intent's. */
  ghost predicate CanDecide(c: Crypto, ch: Channel, request: ReservationRequest) {
    var n, total := |ch.ledger|, Total(Entries(ch.ledger)) + request.entry.amount;
    && !HasPreparedIntent(ch)
    && (n < 64 ==> total <= MAX_PROTOCOL_U64)
    && (n < 64 && total <= ch.row.terms.fundingAmount ==>
          forall j :: j in ch.intents ==>
            ch.intents[j].checkpointHash != CheckpointDigest(c, ch.row.terms, NextCheckpoint(c, ch, request)))
  }

  lemma PrepareFreshCases(c: Crypto, db: Database, request: ReservationRequest, gate: Gate, fingerprint: Bytes32,
                          row: ChannelRow, authorization: Bytes32, after: ChannelRow, gated: Gated)
    requires request.fundingCoinId in db && EvaluateGate(row, gate) == Success((after, gated))
    requires Fits(gated.observedPeakHeight) && Fits(after.acceptanceCutoffHeight) && Fits(after.scheduledCloseHeight)
    ensures var d := Decide(c, db, request, after, authorization, gated);
            PrepareFresh(c, db, request, gate, fingerprint, row, authorization).Success? <==>
            d.Success? && (d.value.Accept? ==>
                             IntentFits(db[request.fundingCoinId], d.value.checkpoint, d.value.hash))
  {
  }

  lemma GatedHeightsFit(row: ChannelRow, gate: Gate)
    requires HeightsBind(row) && EvaluateGate(row, gate).Success?
    ensures var (after, gated) := EvaluateGate(row, gate).value;
            Fits(gated.observedPeakHeight) && Fits(after.acceptanceCutoffHeight) && Fits(after.scheduledCloseHeight)
  {
    GateSucceedsIff(row, gate);
    GateMovesHeights(row, gate);
    GateRecordsPeak(row, gate);
  }

  lemma NextIntentIsPending(c: Crypto, coin: Bytes32, ch: Channel, k: u64)
    requires ChannelOk(c, coin, ch) && k == |ch.ledger| + 1
    ensures k in ch.intents ==> HasPreparedIntent(ch)
  {
    HubHistory.HeadParts(c, coin, ch);
    if k in ch.intents {
      assert IntentOk(c, IdentityOf(coin, ch.row), ch.intents, ch.states, ch.ledger, ch.reservations, k);
    }
  }

  /** The decision behind an open gate, and whether its intent fits. */
  lemma OpenDecidesIff(c: Crypto, db: Database, request: ReservationRequest, row: ChannelRow)
    requires request.fundingCoinId in db && ChannelOk(c, request.fundingCoinId, db[request.fundingCoinId])
    requires SameIdentity(db[request.fundingCoinId].row, row)
    requires request.entry.reservationNonce !in db[request.fundingCoinId].reservations
    requires Authorizes(c, db[request.fundingCoinId], request)
    ensures var ch := db[request.fundingCoinId];
            var d := DecideOpen(c, db, request.fundingCoinId, row, request.entry, request.signature);
            d.Success? && (d.value.Accept? ==> IntentFits(ch, d.value.checkpoint, d.value.hash)) <==>
            CanDecide(c, ch, request)
  {
    var coin, ch := request.fundingCoinId, db[request.fundingCoinId];
    OpenDecision(c, db, coin, row, request.entry, request.signature);
    if !HasPreparedIntent(ch) && |ch.ledger| < 64 {
      NextIntentIsPending(c, coin, ch, |ch.ledger| + 1);
    }
  }

  /** When a first transaction for a fresh nonce succeeds. */
  ghost predicate CanPrepare(c: Crypto, ch: Channel, request: ReservationRequest, gate: Gate) {
    && StoredHeightsFit(ch.row, gate)
    && (Authorizes(c, ch, request) && VerdictOn(ch.row, gate, None) ==> CanDecide(c, ch, request))
  }

  lemma FreshSucceedsIff(c: Crypto, db: Database, request: ReservationRequest, gate: Gate, fingerprint: Bytes32,
                         row: ChannelRow, authorization: Bytes32)
    requires ReadyToPrepare(c, db, request, row, fingerprint, authorization)
    ensures PrepareFresh(c, db, request, gate, fingerprint, row, authorization).Success? <==>
            CanPrepare(c, db[request.fundingCoinId], request, gate)
  {
    var coin := request.fundingCoinId;
    GateSucceedsIff(row, gate);
    if EvaluateGate(row, gate).Success? {
      var (after, gated) := EvaluateGate(row, gate).value;
      GatedHeightsFit(row, gate);
      GateKeepsCutoff(row, gate);
      VerdictHolds(row, gate);
      GateIsOpenIff(row, gate);
      if gated.blocking.Some? {
        GateStatuses(row, gate);
      }
      PrepareFreshCases(c, db, request, gate, fingerprint, row, authorization, after, gated);
      AuthorizationChecked(c, row.terms, coin, request.entry, request.signature);
      DecideCases(c, db, request, after, authorization, gated);
      if Authorizes(c, db[coin], request) && gated.blocking.None? {
        OpenDecidesIff(c, db, request, after);
      }
    }
  }

  lemma GateIsOpenIff(row: ChannelRow, gate: Gate)
    requires EvaluateGate(row, gate).Success?
    ensures EvaluateGate(row, gate).value.1.blocking.None? <==> VerdictOn(row, gate, None)
  {
    if gate.Chain? {
      VerdictIsWarrantedIff(row, gate, None);
    }
  }

  lemma DecideCases(c: Crypto, db: Database, request: ReservationRequest, row: ChannelRow, authorization: Bytes32,
                    gated: Gated)
    requires request.fundingCoinId in db && (gated.blocking.Some? ==> ChainStatus(gated.blocking.value))
    ensures Decide(c, db, request, row, authorization, gated) ==
            if VerifyHash(c, row.terms.userPublicKey, authorization, request.signature).Fail? then
              Success(Reject(InvalidAuthorization, None))
            else if gated.blocking.Some? then Success(Reject(gated.blocking.value, None))
            else DecideOpen(c, db, request.fundingCoinId, row, request.entry, request.signature)
  {
  }

  /** The request decodes, its channel is stored and loads, and the key is the channel's. */
  predicate CanRead(c: Crypto, db: Database, request: ReservationRequest, key: SecretKey, now: u64) {
    && Fits(now) && ValidateEntry(c, request.entry).Pass? && ParseSignature(c, request.signature).Pass?
    && request.fundingCoinId in db && HeightsBind(db[request.fundingCoinId].row)
    && c.publicKey(key) == db[request.fundingCoinId].row.terms.hubStatePublicKeyA
  }

  lemma ReadSucceedsIff(c: Crypto, db: Database, request: ReservationRequest, key: SecretKey, now: u64)
    requires DatabaseOk(c, db)
    ensures ReadForReservation(c, db, request, key, now).Success? <==> CanRead(c, db, request, key, now)
  {
    if request.fundingCoinId in db {
      assert ChannelOk(c, request.fundingCoinId, db[request.fundingCoinId]);
      ChannelLoadsIff(c, db, request.fundingCoinId);
    }
  }

  lemma PrepareCases(c: Crypto, db: Database, request: ReservationRequest, gate: Gate, key: SecretKey, now: u64,
                     fingerprint: Bytes32, row: ChannelRow, authorization: Bytes32)
    requires request.fundingCoinId in db
    requires ReadForReservation(c, db, request, key, now) == Success((fingerprint, row, authorization))
    requires LoadReservation(c, db, request.fundingCoinId, request.entry.reservationNonce) == Success(None)
    ensures var written := PrepareFresh(c, db, request, gate, fingerprint, row, authorization);
            Prepare(c, db, request, gate, key, now) ==
            if written.Failure? then Failure(written.error) else Success(Fresh(written.value))
  {
  }

  /** When the first transaction for a fresh nonce succeeds: the request decodes and its channel loads and is the key's;
      the heights the gate stores fit; and if the user authorized it and the gate is open, it can be decided. */
  lemma PrepareSucceedsIff(c: Crypto, db: Database, request: ReservationRequest, gate: Gate, key: SecretKey, now: u64)
    requires DatabaseOk(c, db)
    requires request.fundingCoinId in db ==>
               request.entry.reservationNonce !in db[request.fundingCoinId].reservations
    ensures Prepare(c, db, request, gate, key, now).Success? <==>
            CanRead(c, db, request, key, now) && CanPrepare(c, db[request.fundingCoinId], request, gate)
  {
    ReadSucceedsIff(c, db, request, key, now);
    if CanRead(c, db, request, key, now) {
      var coin := request.fundingCoinId;
      var (fingerprint, row, authorization) := ReadForReservation(c, db, request, key, now).value;
      ReservationIsRead(c, db, request, key, now);
      assert ChannelOk(c, coin, db[coin]);
      ChannelLoadsIff(c, db, coin);
      ReservationLoads(c, db, coin, request.entry.reservationNonce);
      PrepareCases(c, db, request, gate, key, now, fingerprint, row, authorization);
      FreshSucceedsIff(c, db, request, gate, fingerprint, row, authorization);
    }
  }

  /** A preparation told to fail after its commit has written its row and signed nothing. */
  lemma StopsAfterPreparation(c: Crypto, db: Database, request: ReservationRequest, gate: Gate, key: SecretKey,
                              now: u64)
    requires Prepare(c, db, request, gate, key, now).Success? && Prepare(c, db, request, gate, key, now).value.Fresh?
    ensures var step := Advance(c, db, Begin(request, gate, key, now, AfterPreparationCommit));
            && step.db == Prepare(c, db, request, gate, key, now).value.db && step.signings == []
            && step.task == Done(request.fundingCoinId, request.entry.reservationNonce,
                                 Failure(InjectedFailure(AfterPreparationCommit)))
    ensures Advance(c, db, Begin(request, gate, key, now, NoFailure)).task ==
            ToFindChannel(Job(request.fundingCoinId, request.entry.reservationNonce, key, NoFailure))
  {
  }
}
