/** Two decisions worth their own statements: a nonce already in use, and a rejection for want of room, which the
    program writes in a form it later refuses to read. */
module HubRejections {
  import opened ByteStrings
  import opened Protocol
  import opened Types
  import opened Ledgers
  import opened Packages
  import opened Preimages
  import opened HubRecords
  import opened HubGate
  import opened HubSteps
  import opened HubInvariant
  import HubSafety
  import opened HubReads
  import opened HubDecide
  import opened HubProgress
  import opened HubMachine
  import opened HubRuns
  import opened HubTheorems
  import opened HubClosure

  // ---------------------------------------------------------------- a nonce already in use

  /** A request for a nonce that has a row: the same content finds that row, other content is refused, and either way
      nothing is written, whatever the gate, the height, the time or the request id. */
  lemma KnownNonce(c: Crypto, db: Database, request: ReservationRequest, gate: Gate, key: SecretKey, now: u64)
    requires request.fundingCoinId in db && ChannelOk(c, request.fundingCoinId, db[request.fundingCoinId])
    requires request.entry.reservationNonce in db[request.fundingCoinId].reservations
    requires ReadForReservation(c, db, request, key, now).Success?
    ensures var r := db[request.fundingCoinId].reservations[request.entry.reservationNonce];
            Prepare(c, db, request, gate, key, now) ==
            if Stuck(r) then Failure(Corrupt("reservation state binding"))
            else if r.requestFingerprint != FingerprintDigest(c, request.entry, request.signature) then
              Failure(NonceConflict)
            else Success(Existing(r.stage))
  {
    var coin, nonce, ch := request.fundingCoinId, request.entry.reservationNonce, db[request.fundingCoinId];
    ReservationIsRead(c, db, request, key, now);
    ChannelLoadsIff(c, db, coin);
    ReservationLoads(c, db, coin, nonce);
    assert ReservationOk(c, IdentityOf(coin, ch.row), ch.reservations[nonce], nonce, ch.intents, ch.ledger);
    BindingHoldsIff(c, IdentityOf(coin, ch.row), ch.reservations[nonce], nonce, ch.intents, ch.ledger);
  }

  lemma FingerprintPreimageInjective(e: LedgerEntry, s: Bytes96, f: LedgerEntry, t: Bytes96)
    requires FingerprintPreimage(e, s) == FingerprintPreimage(f, t)
    ensures e == f && s == t
  {
    Split(RESERVATION_REQUEST_DOMAIN, EncodeEntry(e) + s, RESERVATION_REQUEST_DOMAIN, EncodeEntry(f) + t);
    Split(EncodeEntry(e), s, EncodeEntry(f), t);
    EntryEncodingInjective(e, f);
  }

  /** Reusing a nonce succeeds exactly for the entry and signature it was first used with. */
  lemma NonceConflictIff(c: Crypto, db: Database, request: ReservationRequest, gate: Gate, key: SecretKey, now: u64)
    requires request.fundingCoinId in db && ChannelOk(c, request.fundingCoinId, db[request.fundingCoinId])
    requires request.entry.reservationNonce in db[request.fundingCoinId].reservations
    requires !Stuck(db[request.fundingCoinId].reservations[request.entry.reservationNonce])
    requires ReadForReservation(c, db, request, key, now).Success?
    requires var r := db[request.fundingCoinId].reservations[request.entry.reservationNonce];
             CollisionFree(c.sha256,
                           {FingerprintPreimage(r.entry, r.signature),
                             FingerprintPreimage(request.entry, request.signature)})
    ensures var r := db[request.fundingCoinId].reservations[request.entry.reservationNonce];
            Prepare(c, db, request, gate, key, now) ==
            if r.entry == request.entry && r.signature == request.signature then Success(Existing(r.stage))
            else Failure(NonceConflict)
  {
    var ch, nonce := db[request.fundingCoinId], request.entry.reservationNonce;
    var r := ch.reservations[nonce];
    KnownNonce(c, db, request, gate, key, now);
    assert ReservationOk(c, IdentityOf(request.fundingCoinId, ch.row), ch.reservations[nonce], nonce, ch.intents,
                         ch.ledger);
    SameFingerprint(c, r.entry, r.signature, request.entry, request.signature);
  }

  lemma SameFingerprint(c: Crypto, e: LedgerEntry, s: Bytes96, f: LedgerEntry, t: Bytes96)
    requires CollisionFree(c.sha256, {FingerprintPreimage(e, s), FingerprintPreimage(f, t)})
    ensures FingerprintDigest(c, e, s) == FingerprintDigest(c, f, t) <==> e == f && s == t
  {
    if FingerprintDigest(c, e, s) == FingerprintDigest(c, f, t) {
      FingerprintPreimageInjective(e, s, f, t);
    }
  }

  // ---------------------------------------------------------------- rejections for want of room

  /** The entry does not fit what is left, and the program has a status for that: the ledger is full, or the funding is
      not enough for a total that is still in range. */
  predicate LacksRoom(ch: Channel, e: LedgerEntry) {
    || |ch.ledger| == 64
    || ch.row.terms.fundingAmount < Total(Entries(ch.ledger)) + e.amount <= MAX_PROTOCOL_U64
  }

  /** The decision is a rejection for want of room exactly when the request is authorized, the gate is open, no state is
      being prepared, and the entry does not fit. */
  lemma DecidesNoRoomIff(c: Crypto, db: Database, request: ReservationRequest, row: ChannelRow, authorization: Bytes32,
                         gated: Gated)
    requires request.fundingCoinId in db && ChannelOk(c, request.fundingCoinId, db[request.fundingCoinId])
    requires SameIdentity(db[request.fundingCoinId].row, row)
    requires AuthorizationHash(c, row.terms, request.fundingCoinId, request.entry) == Success(authorization)
    requires request.entry.reservationNonce !in db[request.fundingCoinId].reservations
    requires gated.blocking.Some? ==> ChainStatus(gated.blocking.value)
    ensures RejectsForRoom(Decide(c, db, request, row, authorization, gated)) <==>
            && VerifyHash(c, row.terms.userPublicKey, authorization, request.signature).Pass?
            && gated.blocking.None?
            && !HasPreparedIntent(db[request.fundingCoinId])
            && LacksRoom(db[request.fundingCoinId], request.entry)
  {
    var coin := request.fundingCoinId;
    if VerifyHash(c, row.terms.userPublicKey, authorization, request.signature).Pass? && gated.blocking.None? {
      AuthorizationChecked(c, row.terms, coin, request.entry, request.signature);
      OpenDecision(c, db, coin, row, request.entry, request.signature);
      OpenVerdictRejectsIff(c, coin, db[coin], row, request.entry);
    }
  }

  predicate RejectsForRoom(d: Result<Decision, HubError>) {
    d.Success? && d.value.Reject? && NoRoom(d.value.status)
  }

  lemma OpenVerdictRejectsIff(c: Crypto, coin: Bytes32, ch: Channel, row: ChannelRow, e: LedgerEntry)
    requires |ch.ledger| <= 64 && Total(Entries(ch.ledger)) <= row.terms.fundingAmount && ch.row.terms == row.terms
    ensures RejectsForRoom(OpenVerdict(c, coin, ch, row, e)) <==> !HasPreparedIntent(ch) && LacksRoom(ch, e)
  {
  }

  lemma WrittenRowIs(db: Database, request: ReservationRequest, row: ChannelRow, r: Reservation, d: Decision)
    requires request.fundingCoinId in db && WritePrepared(db, request, row, r, d).Success?
    ensures var after := WritePrepared(db, request, row, r, d).value;
            && request.fundingCoinId in after
            && request.entry.reservationNonce in after[request.fundingCoinId].reservations
            && after[request.fundingCoinId].reservations[request.entry.reservationNonce] == r
  {
  }

  /** A preparation that rejects is written whenever its heights fit their columns. */
  lemma RejectionWrites(c: Crypto, db: Database, request: ReservationRequest, gate: Gate, fingerprint: Bytes32,
                        row: ChannelRow, authorization: Bytes32, after: ChannelRow, gated: Gated, d: Decision)
    requires request.fundingCoinId in db && EvaluateGate(row, gate) == Success((after, gated)) && d.Reject?
    requires Decide(c, db, request, after, authorization, gated) == Success(d)
    requires gated.observedPeakHeight <= MAX_PROTOCOL_U64
             && after.acceptanceCutoffHeight <= MAX_PROTOCOL_U64 && after.scheduledCloseHeight <= MAX_PROTOCOL_U64
    ensures PrepareFresh(c, db, request, gate, fingerprint, row, authorization).Success?
  {
  }

  /** What a preparation leaves for its nonce is stuck exactly when its decision was a rejection for want of room. */
  lemma WrittenIsStuckIff(c: Crypto, db: Database, request: ReservationRequest, gate: Gate, fingerprint: Bytes32,
                          row: ChannelRow, authorization: Bytes32)
    requires request.fundingCoinId in db
    requires PrepareFresh(c, db, request, gate, fingerprint, row, authorization).Success?
    ensures EvaluateGate(row, gate).Success?
    ensures var (after, gated) := EvaluateGate(row, gate).value;
            IsStuck(PrepareFresh(c, db, request, gate, fingerprint, row, authorization).value,
                    (request.fundingCoinId, request.entry.reservationNonce)) <==>
            RejectsForRoom(Decide(c, db, request, after, authorization, gated))
  {
    FreshWrites(c, db, request, gate, fingerprint, row, authorization);
    var (after, gated) := EvaluateGate(row, gate).value;
    var d := Decide(c, db, request, after, authorization, gated).value;
    WrittenRowIs(db, request, after,
                 PreparedRow(request, fingerprint, authorization, after, gated.observedPeakHeight, d), d);
  }

  /** A preparation leaves a row that can never be finalized exactly when the request is authorized, the gate opens, no
      state is being prepared, and the entry does not fit: the rejections the program means to sign and return. All of
      it can be read off the request, the snapshots and the stored channel. */
  lemma StuckIff(c: Crypto, db: Database, request: ReservationRequest, gate: Gate, fingerprint: Bytes32,
                 row: ChannelRow, authorization: Bytes32)
    requires DatabaseOk(c, db) && ReadyToPrepare(c, db, request, row, fingerprint, authorization)
    ensures var prepared := PrepareFresh(c, db, request, gate, fingerprint, row, authorization);
            prepared.Success? && IsStuck(prepared.value, (request.fundingCoinId, request.entry.reservationNonce)) <==>
            && VerifyHash(c, row.terms.userPublicKey, authorization, request.signature).Pass?
            && GateOpens(row, gate)
            && !HasPreparedIntent(db[request.fundingCoinId])
            && LacksRoom(db[request.fundingCoinId], request.entry)
  {
    GateOpensIff(row, gate);
    if EvaluateGate(row, gate).Success? {
      var (after, gated) := EvaluateGate(row, gate).value;
      GateKeepsCutoff(row, gate);
      if gated.blocking.Some? {
        GateStatuses(row, gate);
      }
      DecidesNoRoomIff(c, db, request, after, authorization, gated);
      if PrepareFresh(c, db, request, gate, fingerprint, row, authorization).Success? {
        WrittenIsStuckIff(c, db, request, gate, fingerprint, row, authorization);
      } else if RejectsForRoom(Decide(c, db, request, after, authorization, gated)) {
        OpenHeightsFit(row, gate);
        RejectionWrites(c, db, request, gate, fingerprint, row, authorization, after, gated,
                        Decide(c, db, request, after, authorization, gated).value);
      }
    } else {
      assert PrepareFresh(c, db, request, gate, fingerprint, row, authorization).Failure?;
    }
  }

  lemma StuckStays(c: Crypto, before: Database, after: Database, row: PendingRow)
    requires DatabaseOk(c, after) && Grows(before, after) && IsStuck(before, row)
    ensures IsStuck(after, row)
  {
    var (coin, nonce) := row;
    assert Extended(before[coin], after[coin]);
    var ch := after[coin];
    assert ChannelOk(c, coin, after[coin]);
    ChannelParts(c, coin, ch);
    StuckIsPrepared(c, IdentityOf(coin, ch.row), before[coin].reservations[nonce], ch.reservations[nonce], nonce,
                    ch.intents, ch.ledger);
  }

  lemma StuckIsPrepared(c: Crypto, id: Identity, r: Reservation, stored: Reservation, nonce: Bytes32,
                        intents: map<u64, Intent>, ledger: seq<LedgerRow>)
    requires Stuck(r) && Later(r, stored) && ReservationOk(c, id, stored, nonce, intents, ledger)
    ensures Stuck(stored)
  {
  }

  /** Such a row stays prepared in every continuation of the run, and no call is ever answered for its nonce. */
  lemma StuckForEver(c: Crypto, events: seq<Event>, more: seq<Event>, row: PendingRow, i: nat)
    requires IsStuck(Run(c, events).db, row) && i < |Run(c, events + more).answers|
    ensures IsStuck(Run(c, events + more).db, row)
    ensures (Run(c, events + more).answers[i].coin, Run(c, events + more).answers[i].nonce) != row
  {
    RunContinues(c, events, more);
    StuckStays(c, Run(c, events).db, Run(c, events + more).db, row);
    StuckIsUnanswered(Run(c, events + more).db, row, Run(c, events + more).answers[i]);
  }

  lemma StuckIsUnanswered(db: Database, row: PendingRow, a: Answer)
    requires IsStuck(db, row) && AnswerOk(db, a.coin, a.nonce, a.outcome)
    ensures (a.coin, a.nonce) != row
  {
  }

  /** One such row makes every later recovery of the whole store fail. */
  lemma StuckBlocksRecovery(c: Crypto, db: Database, pending: seq<PendingRow>, key: SecretKey, row: PendingRow)
    requires DatabaseOk(c, db) && SignsCorrectly(c) && Lists(db, pending) && IsStuck(db, row)
    ensures RecoverAll(c, db, pending, key).outcomes.Failure?
  {
    RecoveryRuns(c, db, pending, key);
    OpenIsFinalizable(c, db, key, row);
  }

  /** On a channel with nothing reserved, an authorized entry of one unit more than the funding, in time, is prepared as
      such a row. */
  lemma OverspendPrepares(c: Crypto, row: ChannelRow, request: ReservationRequest, key: SecretKey, height: u64)
    requires RowBound(c, request.fundingCoinId, row) && HeightsBind(row) && height < row.acceptanceCutoffHeight
    requires row.latestSequence == 0 && row.latestCheckpointHash == StateZeroDigest(c, row.terms, request.fundingCoinId)
    requires c.publicKey(key) == row.terms.hubStatePublicKeyA
    requires request.entry.amount == row.terms.fundingAmount + 1 <= MAX_PROTOCOL_U64
    requires VerifyAuthorization(c, row.terms, request.fundingCoinId, request.entry, request.signature).Pass?
    ensures var db: Database := map[request.fundingCoinId := Channel(row, map[], map[], [], map[])];
            var prepared := Prepare(c, db, request, Manual(height), key, 0);
            && prepared.Success? && prepared.value.Fresh?
            && IsStuck(prepared.value.db, (request.fundingCoinId, request.entry.reservationNonce))
  {
    var coin := request.fundingCoinId;
    var ch := Channel(row, map[], map[], [], map[]);
    var db: Database := map[coin := ch];
    HubSafety.NewChannelOk(c, coin, row);
    ChannelLoadsIff(c, db, coin);
    ReservationLoads(c, db, coin, request.entry.reservationNonce);
    AuthorizedRowDecodes(c, row.terms, coin, request.entry, request.signature);
    AuthorizationChecked(c, row.terms, coin, request.entry, request.signature);
    OverspendDecision(c, db, request, row, height);
    TermsFacts(c, row.terms);
  }

  lemma OverspendDecision(c: Crypto, db: Database, request: ReservationRequest, row: ChannelRow, height: u64)
    requires request.fundingCoinId in db && db[request.fundingCoinId] == Channel(row, map[], map[], [], map[])
    requires ChannelOk(c, request.fundingCoinId, db[request.fundingCoinId])
    requires request.entry.amount == row.terms.fundingAmount + 1 <= MAX_PROTOCOL_U64
    requires VerifyAuthorization(c, row.terms, request.fundingCoinId, request.entry, request.signature).Pass?
    ensures DecideOpen(c, db, request.fundingCoinId, row, request.entry, request.signature)
            == Success(Reject(InsufficientRemainderStatus, Some(0)))
  {
    OpenDecision(c, db, request.fundingCoinId, row, request.entry, request.signature);
    assert Entries([]) == [];
  }

  // ---------------------------------------------------------------- the shortest run to such a row

  /** A registration, a reservation of one entry, and its first transaction. */
  function OverspendEvents(reg: ChannelRegistration, request: ReservationRequest, key: SecretKey, height: u64)
    : seq<Event>
  {
    [Registers(reg, 0, 0, Active, None), Starts(0, Reserve(request, Manual(height), key, 0, NoFailure)), Advances(0)]
  }

  lemma RunOfThree(c: Crypto, x: Event, y: Event, z: Event)
    ensures Run(c, [x, y, z]) == Apply(c, Apply(c, Apply(c, EmptyWorld, x), y), z)
  {
    assert [x, y, z][..2] == [x, y] && [x, y][..1] == [x] && [x][..0] == [];
    assert Run(c, [x]) == Apply(c, Run(c, []), x);
    assert Run(c, [x, y]) == Apply(c, Run(c, [x]), y);
  }

  function FirstRow(c: Crypto, reg: ChannelRegistration): ChannelRow
    requires ValidateRegistration(c, reg).Success?
  {
    NewRow(c, reg, ValidateRegistration(c, reg).value, 0, Active, None)
  }

  lemma FirstRowBinds(c: Crypto, reg: ChannelRegistration)
    requires ValidateRegistration(c, reg).Success?
    ensures RowBound(c, reg.fundingCoinId, FirstRow(c, reg)) && HeightsBind(FirstRow(c, reg))
    ensures FirstRow(c, reg).acceptanceCutoffHeight == reg.fundingBirthHeight + reg.terms.acceptanceBlocks
  {
    NewRowBound(c, reg, 0, Active, None);
  }

  lemma FirstChannelOk(c: Crypto, reg: ChannelRegistration)
    requires ValidateRegistration(c, reg).Success?
    ensures ChannelOk(c, reg.fundingCoinId, Channel(FirstRow(c, reg), map[], map[], [], map[]))
  {
    FirstRowBinds(c, reg);
    HubSafety.NewChannelOk(c, reg.fundingCoinId, FirstRow(c, reg));
  }

  lemma FirstRegistration(c: Crypto, reg: ChannelRegistration)
    requires ValidateRegistration(c, reg).Success?
    ensures Register(c, map[], reg, 0, 0, Active, None)
            == Success(map[reg.fundingCoinId := Channel(FirstRow(c, reg), map[], map[], [], map[])])
  {
    var row := FirstRow(c, reg);
    var db: Database := map[reg.fundingCoinId := Channel(row, map[], map[], [], map[])];
    FirstRowBinds(c, reg);
    HubSafety.NewChannelOk(c, reg.fundingCoinId, row);
    ChannelLoadsIff(c, db, reg.fundingCoinId);
    var empty: Database := map[];
    assert empty[reg.fundingCoinId := Channel(row, map[], map[], [], map[])] == db;
  }

  lemma BeginCommits(c: Crypto, db: Database, request: ReservationRequest, gate: Gate, key: SecretKey, after: Database)
    requires Prepare(c, db, request, gate, key, 0) == Success(Fresh(after))
    ensures AdvanceBegin(c, db, request, gate, key, 0, NoFailure).db == after
  {
  }

  /** A registered channel, and one call for a reservation on it. */
  function Started(c: Crypto, reg: ChannelRegistration, request: ReservationRequest, gate: Gate, key: SecretKey): World
    requires ValidateRegistration(c, reg).Success?
  {
    World(map[reg.fundingCoinId := Channel(FirstRow(c, reg), map[], map[], [], map[])], [],
          map[0 := Begin(request, gate, key, 0, NoFailure)], [])
  }

  lemma StartedWorld(c: Crypto, reg: ChannelRegistration, request: ReservationRequest, gate: Gate, key: SecretKey)
    requires ValidateRegistration(c, reg).Success?
    ensures Apply(c, Apply(c, EmptyWorld, Registers(reg, 0, 0, Active, None)),
                  Starts(0, Reserve(request, gate, key, 0, NoFailure)))
            == Started(c, reg, request, gate, key)
  {
    FirstRegistration(c, reg);
  }

  /** The first step of the reservation commits what it prepared. */
  lemma PreparingStep(c: Crypto, w: World, request: ReservationRequest, gate: Gate, key: SecretKey)
    requires w.tasks == map[0 := Begin(request, gate, key, 0, NoFailure)]
    ensures var step, after := AdvanceBegin(c, w.db, request, gate, key, 0, NoFailure), Apply(c, w, Advances(0));
            after.db == step.db && after.tasks == map[0 := step.task]
  {
    var updated := w.tasks[0 := AdvanceBegin(c, w.db, request, gate, key, 0, NoFailure).task];
    assert updated == map[0 := AdvanceBegin(c, w.db, request, gate, key, 0, NoFailure).task];
  }

  /** The shortest way to such a row: any registrable channel, then an authorized entry of one unit more than its
      funding, in time. The reservation is stored, and from then on finalizing it reports corruption. */
  lemma OverspendExample(c: Crypto, reg: ChannelRegistration, request: ReservationRequest, key: SecretKey, height: u64)
    requires ValidateRegistration(c, reg).Success? && request.fundingCoinId == reg.fundingCoinId
    requires c.publicKey(key) == reg.terms.hubStatePublicKeyA
             && height < reg.fundingBirthHeight + reg.terms.acceptanceBlocks
    requires request.entry.amount == reg.terms.fundingAmount + 1 <= MAX_PROTOCOL_U64
    requires VerifyAuthorization(c, reg.terms, reg.fundingCoinId, request.entry, request.signature).Pass?
    ensures IsStuck(Run(c, OverspendEvents(reg, request, key, height)).db,
                    (reg.fundingCoinId, request.entry.reservationNonce))
  {
    var row := FirstRow(c, reg);
    var db: Database := map[reg.fundingCoinId := Channel(row, map[], map[], [], map[])];
    FirstRowBinds(c, reg);
    OverspendPrepares(c, row, request, key, height);
    var events := OverspendEvents(reg, request, key, height);
    RunOfThree(c, events[0], events[1], events[2]);
    StartedWorld(c, reg, request, Manual(height), key);
    BeginCommits(c, db, request, Manual(height), key, Prepare(c, db, request, Manual(height), key, 0).value.db);
    PreparingStep(c, Started(c, reg, request, Manual(height), key), request, Manual(height), key);
  }
}
