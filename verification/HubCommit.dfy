/** The second transaction, exactly: what it writes, when it refuses, and why it keeps the database well-formed. */
module HubCommit {
  import opened ByteStrings
  import opened Protocol
  import opened Types
  import opened Packages
  import opened HubRecords
  import opened HubSteps
  import opened HubInvariant
  import opened HubSafety
  import opened HubReads
  import opened HubProgress

  // ---------------------------------------------------------------- what a call brings to the transaction

  /** A state signed for the intent of `r`. */
  ghost predicate StateWork(c: Crypto, id: Identity, intents: map<u64, Intent>, r: Reservation, state: OfficialState) {
    && HasTargets(r) && r.targetStateSequence.value in intents
    && state.checkpoint == intents[r.targetStateSequence.value].checkpoint
    && VerifyOfficialState(c, id.terms, state).Pass?
  }

  /** A package of that state, made of the ledger as it was when the reservation was prepared. */
  ghost predicate PackageWork(c: Crypto, id: Identity, ledger: seq<LedgerRow>, r: Reservation, state: OfficialState,
                              package: RecoveryPackage)
  {
    && r.entryIndex.Some? && r.entryIndex.value <= |ledger|
    && (var before := ledger[..r.entryIndex.value];
        package == RecoveryPackage(id.coin, id.puzzle, id.terms.fundingAmount, id.terms, state,
                                   Entries(before) + [r.entry], Signatures(before) + [r.signature]))
    && ValidPackage(c, package)
  }

  ghost predicate FinalWork(c: Crypto, id: Identity, ch: Channel, nonce: Bytes32, r: Reservation,
                            signed: SignedReservationResult, state: Option<(OfficialState, RecoveryPackage)>)
  {
    && nonce in ch.reservations && r.stage.Prepared? && Later(r, ch.reservations[nonce]) && !Stuck(r)
    && ResultOk(c, id, r, nonce, signed)
    && (state.Some? <==> IsSignedTarget(r))
    && (state.Some? ==> && StateWork(c, id, ch.intents, r, state.value.0)
                        && PackageWork(c, id, ch.ledger, r, state.value.0, state.value.1))
  }

  // ---------------------------------------------------------------- reads inside the transaction

  /** Finding a row: it is there, unless it is missing or stuck. */
  lemma FindsReservation(c: Crypto, db: Database, coin: Bytes32, nonce: Bytes32)
    requires coin in db && ChannelOk(c, coin, db[coin])
    ensures FindReservation(c, db, db[coin].row.terms, coin, nonce) ==
            if nonce !in db[coin].reservations then Failure(ReservationNotFound)
            else if Stuck(db[coin].reservations[nonce]) then Failure(Corrupt("reservation state binding"))
            else Success(db[coin].reservations[nonce])
  {
    var ch, id := db[coin], IdentityOf(coin, db[coin].row);
    ReservationLoads(c, db, coin, nonce);
    if nonce in ch.reservations {
      var r := ch.reservations[nonce];
      assert ReservationOk(c, id, ch.reservations[nonce], nonce, ch.intents, ch.ledger);
      BindingHoldsIff(c, id, r, nonce, ch.intents, ch.ledger);
    }
  }

  /** A prepared acceptance targets the state right after the head. */
  lemma PreparedTargetsHead(c: Crypto, id: Identity, ch: Channel, nonce: Bytes32, r: Reservation)
    requires IntentsOk(c, id, ch.intents, ch.states, ch.ledger, ch.reservations)
    requires ReservationOk(c, id, r, nonce, ch.intents, ch.ledger) && r.stage.Prepared? && IsSignedTarget(r)
    ensures |ch.ledger| < 64 && r.targetStateSequence == Some(|ch.ledger| + 1) && r.entryIndex == Some(|ch.ledger|)
    ensures var n: u64 := |ch.ledger| + 1;
            && n in ch.intents && r.targetCheckpointHash == Some(ch.intents[n].checkpointHash)
            && IntentOk(c, id, ch.intents, ch.states, ch.ledger, ch.reservations, n)
            && ch.intents[n].reservationNonce == nonce
  {
    var k := r.targetStateSequence.value;
    assert IntentOk(c, id, ch.intents, ch.states, ch.ledger, ch.reservations, k);
  }

  // ---------------------------------------------------------------- the state half

  function NewStateRow(r: Reservation, hash: Bytes32, work: (OfficialState, RecoveryPackage)): StateRow {
    StateRow(hash, work.0, work.1, r.observedPeakHeight)
  }

  lemma WorkIsCommittable(c: Crypto, id: Identity, ch: Channel, nonce: Bytes32, r: Reservation,
                          signed: SignedReservationResult, work: (OfficialState, RecoveryPackage), n: u64)
    requires FinalWork(c, id, ch, nonce, r, signed, Some(work)) && n == |ch.ledger| + 1 && n in ch.intents
    requires r.targetStateSequence == Some(n) && r.entryIndex == Some(n - 1)
    ensures Committable(c, id, r, nonce, ch.intents[n], ch.ledger, NewStateRow(r, ch.intents[n].checkpointHash, work),
                        signed)
  {
    assert ch.ledger[..n - 1] == ch.ledger;
  }

  /** Nothing stored so far has the new state's sequence or hash. */
  lemma NextStateFits(c: Crypto, id: Identity, ch: Channel, n: u64)
    requires StatesOk(c, id, ch.states, ch.ledger)
    requires IntentsOk(c, id, ch.intents, ch.states, ch.ledger, ch.reservations)
    requires n == |ch.ledger| + 1 && n in ch.intents
    ensures StateFits(ch, n, ch.intents[n].checkpointHash)
  {
    assert n !in ch.states.Keys;
    forall j | j in ch.states ensures ch.states[j].checkpointHash != ch.intents[n].checkpointHash {
      assert j in ch.states.Keys;
      assert IntentOk(c, id, ch.intents, ch.states, ch.ledger, ch.reservations, j);
    }
  }

  lemma AppendIs(c: Crypto, coin: Bytes32, ch: Channel, nonce: Bytes32, r: Reservation, signed: SignedReservationResult,
                 work: (OfficialState, RecoveryPackage), n: u64)
    requires n == |ch.ledger| + 1 && n in ch.intents && work.0.checkpoint.stateSequence == n
    requires StateFits(ch, n, ch.intents[n].checkpointHash) && LedgerRowFits(ch.ledger, NewLedgerRow(r, nonce, n))
    requires InsertRow(ch.ledger, NewLedgerRow(r, nonce, n)) == ch.ledger + [NewLedgerRow(r, nonce, n)]
    ensures var appended := AppendState(ch, r, nonce, work.0, work.1, ch.intents[n].checkpointHash, n - 1);
            && appended.Success?
            && MarkSigned(appended.value, nonce, r, signed) ==
               Committed(ch, nonce, r, n, ch.intents[n], NewStateRow(r, ch.intents[n].checkpointHash, work), signed)
  {
  }

  lemma CommitStateReaches(c: Crypto, db: Database, coin: Bytes32, nonce: Bytes32, r: Reservation,
                           work: (OfficialState, RecoveryPackage), n: u64)
    requires coin in db && LoadChannel(c, db, coin) == Success(db[coin].row)
    requires ValidateCheckpoint(c, db[coin].row.terms, work.0.checkpoint).Pass?
    requires n == db[coin].row.latestSequence + 1 && n in db[coin].intents && db[coin].intents[n].stage.Prepared?
    requires db[coin].intents[n].checkpointHash == CheckpointDigest(c, db[coin].row.terms, work.0.checkpoint)
    requires work.0.checkpoint.stateSequence == n && n <= 64
    requires work.0.checkpoint.previousCheckpointHash == db[coin].row.latestCheckpointHash
    requires r.targetCheckpointHash == Some(db[coin].intents[n].checkpointHash) && r.entryIndex == Some(n - 1)
    ensures CommitState(c, db, coin, nonce, r, work.0, work.1) ==
            AppendState(db[coin], r, nonce, work.0, work.1, db[coin].intents[n].checkpointHash, n - 1)
  {
  }

  // ---------------------------------------------------------------- the whole transaction

  /** The channel after a row is finalized. */
  function Finalized(ch: Channel, nonce: Bytes32, r: Reservation, signed: SignedReservationResult,
                     state: Option<(OfficialState, RecoveryPackage)>): Channel
  {
    var n := |ch.ledger| + 1;
    if state.None? || n > 64 || n as u64 !in ch.intents then MarkSigned(ch, nonce, r, signed)
    else Committed(ch, nonce, r, n, ch.intents[n], NewStateRow(r, ch.intents[n].checkpointHash, state.value), signed)
  }

  lemma StateHalfFits(c: Crypto, coin: Bytes32, ch: Channel, nonce: Bytes32, r: Reservation,
                      signed: SignedReservationResult, work: (OfficialState, RecoveryPackage), n: u64)
    requires ChannelOk(c, coin, ch) && nonce in ch.reservations && ch.reservations[nonce] == r
    requires FinalWork(c, IdentityOf(coin, ch.row), ch, nonce, r, signed, Some(work))
    requires n == |ch.ledger| + 1 && n in ch.intents
    requires r.targetStateSequence == Some(n) && r.entryIndex == Some(n - 1)
    ensures StateFits(ch, n, ch.intents[n].checkpointHash) && LedgerRowFits(ch.ledger, NewLedgerRow(r, nonce, n))
    ensures InsertRow(ch.ledger, NewLedgerRow(r, nonce, n)) == ch.ledger + [NewLedgerRow(r, nonce, n)]
    ensures ChannelOk(c, coin, Committed(ch, nonce, r, n, ch.intents[n],
                                         NewStateRow(r, ch.intents[n].checkpointHash, work), signed))
  {
    var id, s := IdentityOf(coin, ch.row), NewStateRow(r, ch.intents[n].checkpointHash, work);
    WorkIsCommittable(c, id, ch, nonce, r, signed, work, n);
    CommitKeepsStates(c, coin, ch, nonce, r, s, signed, n);
    StateCommitted(c, coin, ch, nonce, r, s, signed, n);
    NextStateFits(c, id, ch, n);
  }

  /** The state to commit is the one its intent holds, right after the head. */
  lemma WorkContinuesHead(c: Crypto, coin: Bytes32, ch: Channel, nonce: Bytes32, r: Reservation,
                          signed: SignedReservationResult, work: (OfficialState, RecoveryPackage), n: u64)
    requires ChannelOk(c, coin, ch) && FinalWork(c, IdentityOf(coin, ch.row), ch, nonce, r, signed, Some(work))
    requires n == |ch.ledger| + 1 && n in ch.intents && r.targetStateSequence == Some(n)
    requires IntentOk(c, IdentityOf(coin, ch.row), ch.intents, ch.states, ch.ledger, ch.reservations, n)
    ensures n == ch.row.latestSequence + 1 && ch.intents[n].stage.Prepared?
    ensures ch.intents[n].checkpointHash == CheckpointDigest(c, ch.row.terms, work.0.checkpoint)
    ensures work.0.checkpoint.stateSequence == n
    ensures work.0.checkpoint.previousCheckpointHash == ch.row.latestCheckpointHash
  {
  }

  lemma StateHalf(c: Crypto, db: Database, coin: Bytes32, nonce: Bytes32, r: Reservation,
                  signed: SignedReservationResult, work: (OfficialState, RecoveryPackage))
    requires coin in db && ChannelOk(c, coin, db[coin])
    requires FinalWork(c, IdentityOf(coin, db[coin].row), db[coin], nonce, r, signed, Some(work))
    requires db[coin].reservations[nonce] == r && LoadChannel(c, db, coin).Success?
    ensures CommitState(c, db, coin, nonce, r, work.0, work.1).Success?
    ensures MarkSigned(CommitState(c, db, coin, nonce, r, work.0, work.1).value, nonce, r, signed)
            == Finalized(db[coin], nonce, r, signed, Some(work))
    ensures ChannelOk(c, coin, Finalized(db[coin], nonce, r, signed, Some(work)))
  {
    var ch, id := db[coin], IdentityOf(coin, db[coin].row);
    assert ReservationOk(c, id, ch.reservations[nonce], nonce, ch.intents, ch.ledger);
    PreparedTargetsHead(c, id, ch, nonce, r);
    var n: u64 := |ch.ledger| + 1;
    StateHalfFits(c, coin, ch, nonce, r, signed, work, n);
    ChannelLoadsIff(c, db, coin);
    OfficialStateIsValid(c, id.terms, work.0);
    WorkContinuesHead(c, coin, ch, nonce, r, signed, work, n);
    CommitStateReaches(c, db, coin, nonce, r, work, n);
    AppendIs(c, coin, ch, nonce, r, signed, work, n);
  }

  lemma MarkSignedExtends(ch: Channel, nonce: Bytes32, r: Reservation, signed: SignedReservationResult)
    requires nonce in ch.reservations && ch.reservations[nonce] == r && r.stage.Prepared?
    ensures Extended(ch, MarkSigned(ch, nonce, r, signed))
  {
  }

  lemma CommittedExtends(ch: Channel, nonce: Bytes32, r: Reservation, n: u64, s: StateRow,
                         signed: SignedReservationResult)
    requires nonce in ch.reservations && ch.reservations[nonce] == r && r.stage.Prepared?
    requires n > 0 && n !in ch.states && n in ch.intents && ch.intents[n].stage.Prepared?
    ensures Extended(ch, Committed(ch, nonce, r, n, ch.intents[n], s, signed))
  {
  }

  lemma HeadIntentIsPrepared(c: Crypto, coin: Bytes32, ch: Channel, n: u64)
    requires ChannelOk(c, coin, ch) && n == |ch.ledger| + 1 && n in ch.intents
    ensures n !in ch.states && ch.intents[n].stage.Prepared?
  {
    assert n !in ch.states.Keys;
    assert IntentOk(c, IdentityOf(coin, ch.row), ch.intents, ch.states, ch.ledger, ch.reservations, n);
  }

  lemma FinalizedExtends(c: Crypto, coin: Bytes32, ch: Channel, nonce: Bytes32, r: Reservation,
                         signed: SignedReservationResult, state: Option<(OfficialState, RecoveryPackage)>)
    requires ChannelOk(c, coin, ch) && nonce in ch.reservations && ch.reservations[nonce] == r && r.stage.Prepared?
    ensures Extended(ch, Finalized(ch, nonce, r, signed, state))
  {
    var n := |ch.ledger| + 1;
    if state.None? || n > 64 || n as u64 !in ch.intents {
      MarkSignedExtends(ch, nonce, r, signed);
    } else {
      HeadIntentIsPrepared(c, coin, ch, n as u64);
      CommittedExtends(ch, nonce, r, n as u64, NewStateRow(r, ch.intents[n].checkpointHash, state.value), signed);
    }
  }

  lemma CommitRuns(c: Crypto, db: Database, coin: Bytes32, nonce: Bytes32, terms: ChannelTerms, r: Reservation,
                   signed: SignedReservationResult, state: Option<(OfficialState, RecoveryPackage)>)
    requires coin in db && FindReservation(c, db, terms, coin, nonce) == Success(r) && r.stage.Prepared?
    ensures Commit(c, db, coin, nonce, terms, r, signed, state) ==
            if state.None? then Success(Some(db[coin := MarkSigned(db[coin], nonce, r, signed)]))
            else
              var appended := CommitState(c, db, coin, nonce, r, state.value.0, state.value.1);
              if appended.Failure? then Failure(appended.error)
              else Success(Some(db[coin := MarkSigned(appended.value, nonce, r, signed)]))
  {
  }

  /** The second transaction, exactly: nothing if another call got there first, the load error if the channel no longer
      loads, and otherwise the one finalized channel. */
  lemma CommitIs(c: Crypto, db: Database, coin: Bytes32, nonce: Bytes32, r: Reservation,
                 signed: SignedReservationResult, state: Option<(OfficialState, RecoveryPackage)>)
    requires coin in db && ChannelOk(c, coin, db[coin])
    requires FinalWork(c, IdentityOf(coin, db[coin].row), db[coin], nonce, r, signed, state)
    ensures var ch, load := db[coin], LoadChannel(c, db, coin);
            && Commit(c, db, coin, nonce, ch.row.terms, r, signed, state) ==
               (if ch.reservations[nonce].stage.Signed? then Success(None)
                else if state.Some? && load.Failure? then Failure(load.error)
                else Success(Some(db[coin := Finalized(ch, nonce, r, signed, state)])))
            && (ch.reservations[nonce].stage.Prepared? && (state.Some? ==> load.Success?) ==>
                  ChannelOk(c, coin, Finalized(ch, nonce, r, signed, state)))
  {
    var ch, id := db[coin], IdentityOf(coin, db[coin].row);
    FindsReservation(c, db, coin, nonce);
    if ch.reservations[nonce].stage.Prepared? {
      assert ch.reservations[nonce] == r;
      CommitRuns(c, db, coin, nonce, ch.row.terms, r, signed, state);
      if state.None? {
        assert ReservationOk(c, id, ch.reservations[nonce], nonce, ch.intents, ch.ledger);
        RejectionFinalized(c, coin, ch, nonce, r, signed);
      } else if LoadChannel(c, db, coin).Success? {
        StateHalf(c, db, coin, nonce, r, signed, state.value);
      }
    }
  }
}
