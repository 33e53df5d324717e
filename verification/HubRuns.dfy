/** What every run of the machine keeps, however calls interleave and wherever they crash. */
module HubRuns {
  import opened ByteStrings
  import opened Protocol
  import opened Types
  import opened Ledgers
  import opened Packages
  import opened HubRecords
  import opened HubGate
  import opened HubSteps
  import opened HubInvariant
  import opened HubReads
  import opened HubProgress
  import opened HubCommit
  import opened HubMachine

  // ---------------------------------------------------------------- what a call under way knows

  ghost predicate RowKnown(db: Database, coin: Bytes32, row: ChannelRow) {
    coin in db && row.terms == db[coin].row.terms && row.fundingPuzzleReveal == db[coin].row.fundingPuzzleReveal
  }

  ghost predicate KeyKnown(c: Crypto, db: Database, job: Job, row: ChannelRow) {
    RowKnown(db, job.coin, row) && c.publicKey(job.key) == row.terms.hubStatePublicKeyA
  }

  ghost predicate ResultWork(c: Crypto, id: Identity, ch: Channel, nonce: Bytes32, r: Reservation,
                             signed: SignedReservationResult)
  {
    && nonce in ch.reservations && r.stage.Prepared? && Later(r, ch.reservations[nonce]) && !Stuck(r)
    && ResultOk(c, id, r, nonce, signed)
  }

  /** The stored row an answer repeats. */
  ghost predicate AnswerOk(db: Database, coin: Bytes32, nonce: Bytes32, o: ReservationOutcome) {
    && coin in db && nonce in db[coin].reservations
    && (var r := db[coin].reservations[nonce];
        && r.stage.Signed? && r.signedResult == Some(o.signedResult)
        && (r.ledgerWritten <==> o.recoveryPackage.Some?)
        && (r.ledgerWritten ==>
              && r.targetStateSequence.Some? && r.targetStateSequence.value in db[coin].states
              && o.recoveryPackage == Some(db[coin].states[r.targetStateSequence.value].recoveryPackage)))
  }

  ghost predicate HalfAnswerOk(db: Database, coin: Bytes32, nonce: Bytes32, signed: SignedReservationResult,
                               sequence: u64)
  {
    && coin in db && nonce in db[coin].reservations
    && (var r := db[coin].reservations[nonce];
        r.stage.Signed? && r.signedResult == Some(signed) && r.ledgerWritten && r.targetStateSequence == Some(sequence))
  }

  ghost predicate TaskOk(c: Crypto, db: Database, task: Task) {
    match task
    case Begin(_, _, _, _, _) => true
    case ToFindChannel(_) => true
    case ToSignResult(job, row) => KeyKnown(c, db, job, row)
    case ToSignState(job, row, r, signed) =>
      && KeyKnown(c, db, job, row) && IsSignedTarget(r)
      && ResultWork(c, IdentityOf(job.coin, row), db[job.coin], job.nonce, r, signed)
    case ToPackage(job, row, r, signed, state) =>
      && KeyKnown(c, db, job, row) && IsSignedTarget(r)
      && ResultWork(c, IdentityOf(job.coin, row), db[job.coin], job.nonce, r, signed)
      && StateWork(c, IdentityOf(job.coin, row), db[job.coin].intents, r, state)
    case ToCommit(job, row, r, signed, work) =>
      && KeyKnown(c, db, job, row)
      && FinalWork(c, IdentityOf(job.coin, row), db[job.coin], job.nonce, r, signed, work)
    case ToReadChannel(_, _) => true
    case ToReadAnswer(coin, _, row) => RowKnown(db, coin, row)
    case ToReadPackage(coin, nonce, signed, sequence) => HalfAnswerOk(db, coin, nonce, signed, sequence)
    case Done(coin, nonce, result) => result.Success? ==> AnswerOk(db, coin, nonce, result.value)
  }

  /** Every signature was made for a row or an intent that is stored, with the key the channel's terms name. */
  ghost predicate SigningOk(c: Crypto, db: Database, s: Signing) {
    match s
    case ResultSigned(key, result) =>
      && ValidateResult(result).Pass?
      && result.fundingCoinId in db && result.reservationNonce in db[result.fundingCoinId].reservations
      && c.publicKey(key) == db[result.fundingCoinId].row.terms.hubStatePublicKeyA
      && result == ResultFrom(db[result.fundingCoinId].reservations[result.reservationNonce],
                              db[result.fundingCoinId].row.terms, result.fundingCoinId, result.reservationNonce)
    case StateSigned(key, terms, k) =>
      && ValidateCheckpoint(c, terms, k).Pass?
      && k.fundingCoinId in db && terms == db[k.fundingCoinId].row.terms
      && c.publicKey(key) == terms.hubStatePublicKeyA
      && k.stateSequence in db[k.fundingCoinId].intents
      && db[k.fundingCoinId].intents[k.stateSequence].checkpoint == k
  }

  // ---------------------------------------------------------------- what others do does not disturb it

  lemma LaterTransitive(a: Reservation, b: Reservation, d: Reservation)
    requires Later(a, b) && Later(b, d)
    ensures Later(a, d)
  {
  }

  lemma ResultWorkStable(c: Crypto, id: Identity, before: Channel, after: Channel, nonce: Bytes32, r: Reservation,
                         signed: SignedReservationResult)
    requires Extended(before, after) && ResultWork(c, id, before, nonce, r, signed)
    ensures ResultWork(c, id, after, nonce, r, signed)
  {
    LaterTransitive(r, before.reservations[nonce], after.reservations[nonce]);
  }

  lemma StateWorkStable(c: Crypto, id: Identity, before: Channel, after: Channel, r: Reservation, state: OfficialState)
    requires Extended(before, after) && StateWork(c, id, before.intents, r, state)
    ensures StateWork(c, id, after.intents, r, state)
  {
  }

  lemma PackageWorkStable(c: Crypto, id: Identity, before: Channel, after: Channel, r: Reservation,
                          state: OfficialState, package: RecoveryPackage)
    requires Extended(before, after) && PackageWork(c, id, before.ledger, r, state, package)
    ensures PackageWork(c, id, after.ledger, r, state, package)
  {
    var k := r.entryIndex.value;
    assert after.ledger[..k] == after.ledger[..|before.ledger|][..k];
  }

  lemma AnswerStable(before: Database, after: Database, coin: Bytes32, nonce: Bytes32, o: ReservationOutcome)
    requires Grows(before, after) && AnswerOk(before, coin, nonce, o)
    ensures AnswerOk(after, coin, nonce, o)
  {
    assert Extended(before[coin], after[coin]);
  }

  lemma SigningStable(c: Crypto, before: Database, after: Database, s: Signing)
    requires Grows(before, after) && SigningOk(c, before, s)
    ensures SigningOk(c, after, s)
  {
    match s
    case ResultSigned(_, result) =>
      assert Extended(before[result.fundingCoinId], after[result.fundingCoinId]);
    case StateSigned(_, _, k) =>
      assert Extended(before[k.fundingCoinId], after[k.fundingCoinId]);
  }

  lemma TaskStable(c: Crypto, before: Database, after: Database, task: Task)
    requires Grows(before, after) && TaskOk(c, before, task)
    ensures TaskOk(c, after, task)
  {
    match task
    case ToSignState(job, row, r, signed) =>
      ResultWorkStable(c, IdentityOf(job.coin, row), before[job.coin], after[job.coin], job.nonce, r, signed);
    case ToPackage(job, row, r, signed, state) =>
      ResultWorkStable(c, IdentityOf(job.coin, row), before[job.coin], after[job.coin], job.nonce, r, signed);
      StateWorkStable(c, IdentityOf(job.coin, row), before[job.coin], after[job.coin], r, state);
    case ToCommit(job, row, r, signed, work) =>
      ResultWorkStable(c, IdentityOf(job.coin, row), before[job.coin], after[job.coin], job.nonce, r, signed);
      if work.Some? {
        StateWorkStable(c, IdentityOf(job.coin, row), before[job.coin], after[job.coin], r, work.value.0);
        PackageWorkStable(c, IdentityOf(job.coin, row), before[job.coin], after[job.coin], r, work.value.0,
                          work.value.1);
      }
    case Done(coin, nonce, result) =>
      if result.Success? {
        AnswerStable(before, after, coin, nonce, result.value);
      }
    case ToReadPackage(coin, _, _, _) => assert Extended(before[coin], after[coin]);
    case ToReadAnswer(coin, _, _) => assert Extended(before[coin], after[coin]);
    case ToSignResult(job, _) => assert Extended(before[job.coin], after[job.coin]);
    case _ =>
  }

  // ---------------------------------------------------------------- what it does itself keeps everything

  ghost predicate StepOk(c: Crypto, before: Database, step: Step) {
    && DatabaseOk(c, step.db) && Grows(before, step.db)
    && TaskOk(c, step.db, step.task)
    && (forall s :: s in step.signings ==> SigningOk(c, step.db, s))
  }

  /** A step that writes nothing. */
  ghost predicate ReadOk(c: Crypto, db: Database, step: Step) {
    && step.db == db
    && TaskOk(c, db, step.task)
    && (forall s :: s in step.signings ==> SigningOk(c, db, s))
  }

  lemma ReadStepOk(c: Crypto, db: Database, step: Step)
    requires DatabaseOk(c, db) && ReadOk(c, db, step)
    ensures StepOk(c, db, step)
  {
    DatabaseGrowsReflexive(db);
  }

  lemma BeginOk(c: Crypto, db: Database, request: ReservationRequest, gate: Gate, key: SecretKey, now: u64,
                point: FailurePoint)
    requires DatabaseOk(c, db)
    ensures StepOk(c, db, AdvanceBegin(c, db, request, gate, key, now, point))
  {
    var prepared := Prepare(c, db, request, gate, key, now);
    BeginOutcome(c, db, request, gate, key, now, point);
    if prepared.Success? && prepared.value.Fresh? {
      PrepareKeeps(c, db, request, gate, key, now);
    } else {
      DatabaseGrowsReflexive(db);
    }
  }

  lemma BeginOutcome(c: Crypto, db: Database, request: ReservationRequest, gate: Gate, key: SecretKey, now: u64,
                     point: FailurePoint)
    ensures var step, prepared := AdvanceBegin(c, db, request, gate, key, now, point),
                                  Prepare(c, db, request, gate, key, now);
            && step.signings == []
            && step.db == (if prepared.Success? && prepared.value.Fresh? then prepared.value.db else db)
            && (step.task.Done? ==> step.task.result.Failure?)
            && (step.task.Done? || step.task.ToReadChannel? || step.task.ToFindChannel?)
  {
  }

  lemma FindChannelOk(c: Crypto, db: Database, job: Job)
    requires job.coin in db ==> ChannelOk(c, job.coin, db[job.coin])
    ensures ReadOk(c, db, AdvanceFindChannel(c, db, job))
  {
    if job.coin in db {
      ChannelLoadsIff(c, db, job.coin);
    }
  }

  lemma FreshResultWork(c: Crypto, db: Database, job: Job, row: ChannelRow, r: Reservation,
                        signed: SignedReservationResult)
    requires KeyKnown(c, db, job, row) && job.nonce in db[job.coin].reservations
             && r == db[job.coin].reservations[job.nonce]
    requires r.stage.Prepared? && !Stuck(r)
    requires signed.result == ResultFrom(r, row.terms, job.coin, job.nonce)
             && VerifySignedResult(c, row.terms, signed).Pass?
    ensures ResultWork(c, IdentityOf(job.coin, row), db[job.coin], job.nonce, r, signed)
  {
  }

  lemma FreshResultSigning(c: Crypto, db: Database, job: Job, row: ChannelRow, r: Reservation)
    requires KeyKnown(c, db, job, row) && job.nonce in db[job.coin].reservations
             && r == db[job.coin].reservations[job.nonce]
    requires ValidateResult(ResultFrom(r, row.terms, job.coin, job.nonce)).Pass?
    ensures SigningOk(c, db, ResultSigned(job.key, ResultFrom(r, row.terms, job.coin, job.nonce)))
  {
  }

  /** What the step that signs a result does once it has found the row. */
  lemma ResultSigningStep(c: Crypto, db: Database, job: Job, row: ChannelRow, r: Reservation)
    requires FindReservation(c, db, row.terms, job.coin, job.nonce) == Success(r) && r.stage.Prepared?
    ensures var step, result := AdvanceSignResult(c, db, job, row), ResultFrom(r, row.terms, job.coin, job.nonce);
            var signing := ResultSigned(job.key, result);
            var signed := SignedReservationResult(result, SignatureOf(c, signing));
            && step.db == db
            && step.signings == (if ValidateResult(result).Fail? then [] else [signing])
            && ((step.task.Done? && step.task.result.Failure?) ||
                (&& step.task ==
                    (if IsSignedTarget(r) then ToSignState(job, row, r, signed)
                     else ToCommit(job, row, r, signed, None))
                 && ValidateResult(result).Pass?
                 && VerifySignedResult(c, row.terms, signed).Pass?))
  {
  }

  lemma SignResultOk(c: Crypto, db: Database, job: Job, row: ChannelRow)
    requires KeyKnown(c, db, job, row) && ChannelOk(c, job.coin, db[job.coin])
    ensures ReadOk(c, db, AdvanceSignResult(c, db, job, row))
  {
    FindsReservation(c, db, job.coin, job.nonce);
    var found := FindReservation(c, db, row.terms, job.coin, job.nonce);
    if found.Success? && found.value.stage.Prepared? {
      ResultSignedOk(c, db, job, row, found.value);
    }
  }

  lemma ResultSignedOk(c: Crypto, db: Database, job: Job, row: ChannelRow, r: Reservation)
    requires KeyKnown(c, db, job, row) && job.nonce in db[job.coin].reservations
             && r == db[job.coin].reservations[job.nonce]
    requires FindReservation(c, db, row.terms, job.coin, job.nonce) == Success(r) && r.stage.Prepared? && !Stuck(r)
    ensures ReadOk(c, db, AdvanceSignResult(c, db, job, row))
  {
    ResultSigningStep(c, db, job, row, r);
    var result := ResultFrom(r, row.terms, job.coin, job.nonce);
    var signed := SignedReservationResult(result, SignatureOf(c, ResultSigned(job.key, result)));
    if ValidateResult(result).Pass? {
      FreshResultSigning(c, db, job, row, r);
      if VerifySignedResult(c, row.terms, signed).Pass? {
        FreshResultWork(c, db, job, row, r, signed);
      }
    }
  }

  /** A stored acceptance and its intent, seen through an earlier reading of the row. */
  lemma TargetOf(c: Crypto, id: Identity, ch: Channel, nonce: Bytes32, r: Reservation)
    requires ReservationsOk(c, id, ch.reservations, ch.intents, ch.ledger)
    requires IntentsOk(c, id, ch.intents, ch.states, ch.ledger, ch.reservations)
    requires nonce in ch.reservations && Later(r, ch.reservations[nonce]) && IsSignedTarget(r)
    ensures HasTargets(r) && r.targetStateSequence.value in ch.intents
    ensures var k := r.targetStateSequence.value;
            && 1 <= k <= |ch.ledger| + 1 && r.entryIndex == Some(k - 1)
            && IntentBound(c, id, ch.intents, ch.reservations, k)
            && (k <= |ch.ledger| ==> ch.ledger[k - 1].entry == r.entry)
  {
    assert ReservationOk(c, id, ch.reservations[nonce], nonce, ch.intents, ch.ledger);
    AcceptedTarget(c, id, ch.reservations[nonce], nonce, ch.intents, ch.ledger, r);
    assert IntentOk(c, id, ch.intents, ch.states, ch.ledger, ch.reservations, r.targetStateSequence.value);
  }

  lemma AcceptedTarget(c: Crypto, id: Identity, stored: Reservation, nonce: Bytes32, intents: map<u64, Intent>,
                       ledger: seq<LedgerRow>, r: Reservation)
    requires ReservationOk(c, id, stored, nonce, intents, ledger) && Later(r, stored) && IsSignedTarget(r)
    ensures HasTargets(r) && r.targetStateSequence.value in intents
    ensures var k := r.targetStateSequence.value;
            && 1 <= k && r.entryIndex == Some(k - 1)
            && (k <= |ledger| ==> ledger[k - 1].entry == r.entry)
  {
  }

  lemma ChannelParts(c: Crypto, coin: Bytes32, ch: Channel)
    requires ChannelOk(c, coin, ch)
    ensures var id := IdentityOf(coin, ch.row);
            && ReservationsOk(c, id, ch.reservations, ch.intents, ch.ledger)
            && IntentsOk(c, id, ch.intents, ch.states, ch.ledger, ch.reservations)
            && LedgerOk(c, id, ch.ledger)
  {
  }

  lemma FreshStateWork(c: Crypto, db: Database, job: Job, row: ChannelRow, r: Reservation,
                       signed: SignedReservationResult, state: OfficialState, k: u64)
    requires TaskOk(c, db, ToSignState(job, row, r, signed))
    requires HasTargets(r) && r.targetStateSequence == Some(k) && k in db[job.coin].intents
    requires state.checkpoint == db[job.coin].intents[k].checkpoint && VerifyOfficialState(c, row.terms, state).Pass?
    ensures TaskOk(c, db, ToPackage(job, row, r, signed, state))
  {
  }

  lemma FreshStateSigning(c: Crypto, db: Database, job: Job, row: ChannelRow, k: u64)
    requires KeyKnown(c, db, job, row) && k in db[job.coin].intents
    requires IntentBound(c, IdentityOf(job.coin, row), db[job.coin].intents, db[job.coin].reservations, k)
    requires ValidateCheckpoint(c, row.terms, db[job.coin].intents[k].checkpoint).Pass?
    ensures SigningOk(c, db, StateSigned(job.key, row.terms, db[job.coin].intents[k].checkpoint))
  {
  }

  /** What the step that signs a state does once it has found the checkpoint. */
  lemma StateSigningStep(c: Crypto, db: Database, job: Job, row: ChannelRow, r: Reservation,
                         signed: SignedReservationResult, k: LedgerCheckpoint)
    requires r.targetStateSequence.Some?
             && LoadIntentCheckpoint(db, job.coin, r.targetStateSequence.value) == Success(k)
    ensures var step, signing := AdvanceSignState(c, db, job, row, r, signed), StateSigned(job.key, row.terms, k);
            var state := OfficialState(k, SignatureOf(c, signing));
            && step.db == db
            && step.signings == (if ValidateCheckpoint(c, row.terms, k).Fail? then [] else [signing])
            && ((step.task.Done? && step.task.result.Failure?) ||
                (step.task == ToPackage(job, row, r, signed, state) && VerifyOfficialState(c, row.terms, state).Pass?))
  {
  }

  /** The step that signs a state, given the intent it finds. */
  lemma StateSignedOk(c: Crypto, db: Database, job: Job, row: ChannelRow, r: Reservation,
                      signed: SignedReservationResult)
    requires TaskOk(c, db, ToSignState(job, row, r, signed))
    requires HasTargets(r) && r.targetStateSequence.value in db[job.coin].intents
    requires IntentBound(c, IdentityOf(job.coin, row), db[job.coin].intents, db[job.coin].reservations,
                         r.targetStateSequence.value)
    ensures ReadOk(c, db, AdvanceSignState(c, db, job, row, r, signed))
  {
    var found := LoadIntentCheckpoint(db, job.coin, r.targetStateSequence.value);
    if found.Success? {
      StateSigningStep(c, db, job, row, r, signed, found.value);
      var state := OfficialState(found.value, SignatureOf(c, StateSigned(job.key, row.terms, found.value)));
      if ValidateCheckpoint(c, row.terms, found.value).Pass? {
        FreshStateSigning(c, db, job, row, r.targetStateSequence.value);
      }
      if VerifyOfficialState(c, row.terms, state).Pass? {
        FreshStateWork(c, db, job, row, r, signed, state, r.targetStateSequence.value);
      }
    }
  }

  lemma SignStateOk(c: Crypto, db: Database, job: Job, row: ChannelRow, r: Reservation, signed: SignedReservationResult)
    requires TaskOk(c, db, ToSignState(job, row, r, signed)) && ChannelOk(c, job.coin, db[job.coin])
    ensures ReadOk(c, db, AdvanceSignState(c, db, job, row, r, signed))
  {
    ChannelParts(c, job.coin, db[job.coin]);
    TargetOf(c, IdentityOf(job.coin, row), db[job.coin], job.nonce, r);
    StateSignedOk(c, db, job, row, r, signed);
  }

  /** An entry that is already in the ledger cannot be appended to it again. */
  lemma NoSecondAppend(c: Crypto, t: ChannelTerms, ledger: seq<LedgerRow>, e: LedgerEntry, k: nat)
    requires 1 <= k <= |ledger| && ledger[k - 1].entry == e
    ensures !ValidLedger(c, t, Entries(ledger) + [e])
  {
    var longer := Entries(ledger) + [e];
    assert longer[k - 1].reservationNonce == longer[|ledger|].reservationNonce;
  }

  lemma MadePackage(c: Crypto, db: Database, coin: Bytes32, row: ChannelRow, r: Reservation, state: OfficialState)
    requires coin in db && LoadLedger(c, db, coin) == Success(db[coin].ledger)
    requires MakePackage(c, db, row, coin, r, state).Success?
    ensures MakePackage(c, db, row, coin, r, state).value ==
            BuildPackage(row, coin, state, Entries(db[coin].ledger) + [r.entry],
                         Signatures(db[coin].ledger) + [r.signature])
    ensures ValidPackage(c, MakePackage(c, db, row, coin, r, state).value)
  {
    PackageAcceptedIffValid(c, MakePackage(c, db, row, coin, r, state).value);
  }

  lemma PackageFits(c: Crypto, id: Identity, ledger: seq<LedgerRow>, r: Reservation, state: OfficialState,
                    package: RecoveryPackage, k: nat)
    requires 1 <= k <= |ledger| + 1 && r.entryIndex.Some? && r.entryIndex.value == k - 1
    requires k <= |ledger| ==> ledger[k - 1].entry == r.entry
    requires package == RecoveryPackage(id.coin, id.puzzle, id.terms.fundingAmount, id.terms, state,
                                        Entries(ledger) + [r.entry], Signatures(ledger) + [r.signature])
    requires ValidPackage(c, package)
    ensures PackageWork(c, id, ledger, r, state, package)
  {
    if k <= |ledger| {
      NoSecondAppend(c, id.terms, ledger, r.entry, k);
      assert false;
    }
    assert ledger[..k - 1] == ledger;
  }

  lemma PackageMade(c: Crypto, db: Database, coin: Bytes32, nonce: Bytes32, row: ChannelRow, r: Reservation,
                    state: OfficialState)
    requires coin in db && ChannelOk(c, coin, db[coin]) && RowKnown(db, coin, row)
    requires nonce in db[coin].reservations && Later(r, db[coin].reservations[nonce]) && IsSignedTarget(r)
    requires MakePackage(c, db, row, coin, r, state).Success?
    ensures PackageWork(c, IdentityOf(coin, row), db[coin].ledger, r, state,
                        MakePackage(c, db, row, coin, r, state).value)
  {
    LedgerLoads(c, db, coin);
    MadePackage(c, db, coin, row, r, state);
    ChannelParts(c, coin, db[coin]);
    TargetOf(c, IdentityOf(coin, row), db[coin], nonce, r);
    PackageFits(c, IdentityOf(coin, row), db[coin].ledger, r, state, MakePackage(c, db, row, coin, r, state).value,
                r.targetStateSequence.value);
  }

  lemma PackageOk(c: Crypto, db: Database, job: Job, row: ChannelRow, r: Reservation, signed: SignedReservationResult,
                  state: OfficialState)
    requires TaskOk(c, db, ToPackage(job, row, r, signed, state)) && ChannelOk(c, job.coin, db[job.coin])
    ensures ReadOk(c, db, AdvancePackage(c, db, job, row, r, signed, state))
  {
    var made := MakePackage(c, db, row, job.coin, r, state);
    if made.Success? {
      PackageMade(c, db, job.coin, job.nonce, row, r, state);
    }
  }

  /** The answer a commit gives is the one it stored. */
  lemma FinalizedAnswer(c: Crypto, id: Identity, ch: Channel, nonce: Bytes32, r: Reservation,
                        signed: SignedReservationResult, work: Option<(OfficialState, RecoveryPackage)>)
    requires ReservationsOk(c, id, ch.reservations, ch.intents, ch.ledger)
    requires IntentsOk(c, id, ch.intents, ch.states, ch.ledger, ch.reservations)
    requires nonce in ch.reservations && ch.reservations[nonce] == r && r.stage.Prepared?
    requires work.Some? <==> IsSignedTarget(r)
    ensures var after := Finalized(ch, nonce, r, signed, work);
            && after.reservations[nonce] == r.(stage := Stage.Signed, signedResult := Some(signed))
            && (r.ledgerWritten <==> work.Some?)
            && (r.ledgerWritten ==>
                  && r.targetStateSequence.Some? && r.targetStateSequence.value in after.states
                  && after.states[r.targetStateSequence.value].recoveryPackage == work.value.1)
  {
    assert ReservationOk(c, id, ch.reservations[nonce], nonce, ch.intents, ch.ledger);
    if work.Some? {
      PreparedTargetsHead(c, id, ch, nonce, r);
    }
  }

  lemma CommitOk(c: Crypto, db: Database, job: Job, row: ChannelRow, r: Reservation, signed: SignedReservationResult,
                 work: Option<(OfficialState, RecoveryPackage)>)
    requires DatabaseOk(c, db) && TaskOk(c, db, ToCommit(job, row, r, signed, work))
    ensures StepOk(c, db, AdvanceCommit(c, db, job, row, r, signed, work))
  {
    var coin, nonce, ch := job.coin, job.nonce, db[job.coin];
    assert ChannelOk(c, coin, db[coin]);
    CommitIs(c, db, coin, nonce, r, signed, work);
    var committed := Commit(c, db, coin, nonce, row.terms, r, signed, work);
    if job.point.AfterStateSignature? || committed.Failure? || committed.value.None? {
      ReadStepOk(c, db, AdvanceCommit(c, db, job, row, r, signed, work));
    } else {
      CommitWrites(c, db, job, row, r, signed, work);
    }
  }

  lemma CommitWrites(c: Crypto, db: Database, job: Job, row: ChannelRow, r: Reservation,
                     signed: SignedReservationResult, work: Option<(OfficialState, RecoveryPackage)>)
    requires DatabaseOk(c, db) && TaskOk(c, db, ToCommit(job, row, r, signed, work)) && !job.point.AfterStateSignature?
    requires db[job.coin].reservations[job.nonce].stage.Prepared?
    requires Commit(c, db, job.coin, job.nonce, row.terms, r, signed, work)
             == Success(Some(db[job.coin := Finalized(db[job.coin], job.nonce, r, signed, work)]))
    requires ChannelOk(c, job.coin, Finalized(db[job.coin], job.nonce, r, signed, work))
    ensures StepOk(c, db, AdvanceCommit(c, db, job, row, r, signed, work))
  {
    var coin, nonce, ch := job.coin, job.nonce, db[job.coin];
    assert ChannelOk(c, coin, db[coin]);
    FinalizedExtends(c, coin, ch, nonce, r, signed, work);
    OneChannelChanges(c, db, coin, Finalized(ch, nonce, r, signed, work));
    ChannelParts(c, coin, ch);
    FinalizedAnswer(c, IdentityOf(coin, ch.row), ch, nonce, r, signed, work);
  }

  lemma ReadChannelOk(c: Crypto, db: Database, coin: Bytes32, nonce: Bytes32)
    requires coin in db ==> ChannelOk(c, coin, db[coin])
    ensures ReadOk(c, db, AdvanceReadChannel(c, db, coin, nonce))
  {
    if coin in db {
      ChannelLoadsIff(c, db, coin);
    }
  }

  /** What a successful read of an answer has read. */
  lemma AnswerRead(c: Crypto, db: Database, terms: ChannelTerms, coin: Bytes32, nonce: Bytes32)
    requires ReadAnswer(c, db, terms, coin, nonce).Success?
    ensures coin in db && nonce in db[coin].reservations
    ensures var r, (signed, sequence) := db[coin].reservations[nonce], ReadAnswer(c, db, terms, coin, nonce).value;
            && r.stage.Signed? && r.signedResult == Some(signed)
            && sequence == (if r.ledgerWritten then r.targetStateSequence else None)
  {
  }

  lemma WrittenHasTarget(c: Crypto, id: Identity, ch: Channel, nonce: Bytes32)
    requires ReservationsOk(c, id, ch.reservations, ch.intents, ch.ledger) && nonce in ch.reservations
    ensures ch.reservations[nonce].ledgerWritten <==> IsSignedTarget(ch.reservations[nonce])
    ensures ch.reservations[nonce].ledgerWritten ==> ch.reservations[nonce].targetStateSequence.Some?
  {
    assert ReservationOk(c, id, ch.reservations[nonce], nonce, ch.intents, ch.ledger);
  }

  lemma ReadAnswerOk(c: Crypto, db: Database, coin: Bytes32, nonce: Bytes32, row: ChannelRow)
    requires RowKnown(db, coin, row) && ChannelOk(c, coin, db[coin])
    ensures ReadOk(c, db, AdvanceReadAnswer(c, db, coin, nonce, row))
  {
    var read := ReadAnswer(c, db, row.terms, coin, nonce);
    if read.Success? {
      AnswerRead(c, db, row.terms, coin, nonce);
      ChannelParts(c, coin, db[coin]);
      WrittenHasTarget(c, IdentityOf(coin, db[coin].row), db[coin], nonce);
    }
  }

  lemma ReadPackageOk(c: Crypto, db: Database, coin: Bytes32, nonce: Bytes32, signed: SignedReservationResult,
                      sequence: u64)
    requires HalfAnswerOk(db, coin, nonce, signed, sequence)
    ensures ReadOk(c, db, AdvanceReadPackage(c, db, coin, nonce, signed, sequence))
  {
    var read := ReadPackage(c, db, coin, sequence);
    if read.Success? {
      PackageRead(c, db, coin, sequence);
    }
  }

  lemma PackageRead(c: Crypto, db: Database, coin: Bytes32, sequence: u64)
    requires ReadPackage(c, db, coin, sequence).Success?
    ensures coin in db && sequence in db[coin].states
    ensures ReadPackage(c, db, coin, sequence).value == db[coin].states[sequence].recoveryPackage
  {
  }

  /** One step of any call keeps the database well-formed, only adds to it, and knows what it did. */
  lemma AdvanceOk(c: Crypto, db: Database, task: Task)
    requires DatabaseOk(c, db) && TaskOk(c, db, task)
    ensures StepOk(c, db, Advance(c, db, task))
  {
    match task
    case Begin(request, gate, key, now, point) => BeginOk(c, db, request, gate, key, now, point);
    case ToCommit(job, row, r, signed, work) => CommitOk(c, db, job, row, r, signed, work);
    case _ => ReadingStepOk(c, db, task);
  }

  lemma ReadingStepOk(c: Crypto, db: Database, task: Task)
    requires DatabaseOk(c, db) && TaskOk(c, db, task) && !task.Begin? && !task.ToCommit?
    ensures StepOk(c, db, Advance(c, db, task))
  {
    ReadingOk(c, db, task);
    ReadStepOk(c, db, Advance(c, db, task));
  }

  lemma ReadingOk(c: Crypto, db: Database, task: Task)
    requires DatabaseOk(c, db) && TaskOk(c, db, task) && !task.Begin? && !task.ToCommit?
    ensures ReadOk(c, db, Advance(c, db, task))
  {
    match task
    case ToFindChannel(job) =>
      assert job.coin in db ==> ChannelOk(c, job.coin, db[job.coin]);
      FindChannelOk(c, db, job);
    case ToSignResult(job, row) =>
      assert ChannelOk(c, job.coin, db[job.coin]);
      SignResultOk(c, db, job, row);
    case ToSignState(job, row, r, signed) =>
      assert ChannelOk(c, job.coin, db[job.coin]);
      SignStateOk(c, db, job, row, r, signed);
    case ToPackage(job, row, r, signed, state) =>
      assert ChannelOk(c, job.coin, db[job.coin]);
      PackageOk(c, db, job, row, r, signed, state);
    case ToReadChannel(coin, nonce) =>
      assert coin in db ==> ChannelOk(c, coin, db[coin]);
      ReadChannelOk(c, db, coin, nonce);
    case ToReadAnswer(coin, nonce, row) =>
      assert ChannelOk(c, coin, db[coin]);
      ReadAnswerOk(c, db, coin, nonce, row);
    case ToReadPackage(coin, nonce, signed, sequence) => ReadPackageOk(c, db, coin, nonce, signed, sequence);
    case Done(_, _, _) =>
  }
}
