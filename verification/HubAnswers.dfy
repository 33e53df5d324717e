/** What the HUB answers, over every run: which reservations it says are signed, on what, and whose request and whose
    view of the chain each answer is about. */
module HubAnswers {
  import opened ByteStrings
  import opened Protocol
  import opened Types
  import opened Ledgers
  import opened Packages
  import opened HubRecords
  import opened HubGate
  import opened HubSteps
  import opened HubInvariant
  import opened HubDecide
  import opened HubProgress
  import opened HubRuns
  import opened HubMachine
  import opened HubTheorems
  import opened HubHistory
  import opened HubTrace
  import opened HubPeaks
  import HubReads
  import HubClosure

  // ---------------------------------------------------------------- what an answer says

  /** The answer names this reservation, and the signature on it is the HUB's. */
  ghost predicate SaidBy(c: Crypto, t: ChannelTerms, coin: Bytes32, nonce: Bytes32, s: SignedReservationResult) {
    && s.result.networkId == t.networkId && s.result.fundingCoinId == coin && s.result.reservationNonce == nonce
    && ValidateResult(s.result).Pass?
    && c.blsVerify(s.hubResultSignature, t.hubStatePublicKeyA, c.sha256(ResultPreimage(s.result)))
  }

  /** An answer that the reservation is signed: as entry `k` of the ledger, in state `k`, with the package of that
      state, before the cutoff it names, with the whole freeze before the close it names. */
  ghost predicate SaysSigned(c: Crypto, ch: Channel, nonce: Bytes32, o: ReservationOutcome, k: nat) {
    var said := o.signedResult.result;
    && 1 <= k <= |ch.ledger| && ch.ledger[k - 1].entry.reservationNonce == nonce
    && said.ledgerWritten && said.stateSequence == Some(k)
    && o.recoveryPackage.Some?
    && (var p := o.recoveryPackage.value;
        && ValidPackage(c, p) && p.channelTerms == ch.row.terms && p.entries == Entries(ch.ledger)[..k]
        && p.userAuthorizationSignatures == Signatures(ch.ledger)[..k]
        && p.officialState.checkpoint.stateSequence == k
        && said.checkpointHash == Some(CheckpointDigest(c, ch.row.terms, p.officialState.checkpoint)))
    && said.observedPeakHeight < said.acceptanceCutoffHeight
    && said.observedPeakHeight + ch.row.terms.freezeBlocks < said.scheduledCloseHeight
  }

  /** An answer that refuses: no state, no package. */
  predicate SaysRefused(o: ReservationOutcome) {
    var said := o.signedResult.result;
    && !said.ledgerWritten && said.stateSequence.None? && said.checkpointHash.None? && o.recoveryPackage.None?
    && said.status != LedgerFullStatus && said.status != InsufficientRemainderStatus
  }

  lemma SignatureHolds(c: Crypto, id: Identity, r: Reservation, nonce: Bytes32, s: SignedReservationResult)
    requires ResultOk(c, id, r, nonce, s)
    ensures SaidBy(c, id.terms, id.coin, nonce, s)
    ensures s.result.status == r.targetStatus && s.result.ledgerWritten == r.ledgerWritten
    ensures s.result.stateSequence == r.targetStateSequence && s.result.checkpointHash == r.targetCheckpointHash
    ensures s.result.requestId == r.requestId && s.result.authorizationHash == r.authorizationHash
    ensures s.result.observedPeakHeight == r.observedPeakHeight
    ensures s.result.acceptanceCutoffHeight == r.acceptanceCutoffHeight
    ensures s.result.scheduledCloseHeight == r.scheduledCloseHeight
  {
  }

  lemma RowParts(c: Crypto, id: Identity, r: Reservation, nonce: Bytes32, intents: map<u64, Intent>,
                 ledger: seq<LedgerRow>)
    requires ReservationOk(c, id, r, nonce, intents, ledger) && r.stage.Signed?
    ensures r.signedResult.Some? && ResultOk(c, id, r, nonce, r.signedResult.value)
    ensures r.entry.reservationNonce == nonce
    ensures IsSignedTarget(r) ==> AcceptedOk(c, id, r, nonce, intents, ledger)
    ensures !IsSignedTarget(r) ==> && !r.ledgerWritten && r.targetStateSequence.None? && r.targetCheckpointHash.None?
                                   && !NoRoom(r.targetStatus)
  {
  }

  lemma TargetHash(c: Crypto, coin: Bytes32, ch: Channel, k: u64)
    requires ChannelOk(c, coin, ch) && 1 <= k <= |ch.ledger|
    ensures k in ch.intents && k in ch.states
    ensures ch.intents[k].checkpointHash ==
            CheckpointDigest(c, ch.row.terms, ch.states[k].recoveryPackage.officialState.checkpoint)
    ensures ch.states[k].recoveryPackage.officialState.checkpoint.stateSequence == k
  {
    StateLink(c, coin, ch, k);
    PackageAt(c, coin, ch, k);
    HeadParts(c, coin, ch);
    assert IntentOk(c, IdentityOf(coin, ch.row), ch.intents, ch.states, ch.ledger, ch.reservations, k);
  }

  /** The answer of a signed row that was accepted, and of one that was not. */
  lemma AcceptedSays(c: Crypto, coin: Bytes32, ch: Channel, nonce: Bytes32, r: Reservation, o: ReservationOutcome,
                     k: u64)
    requires ChannelOk(c, coin, ch) && ResultOk(c, IdentityOf(coin, ch.row), r, nonce, o.signedResult)
    requires AcceptedOk(c, IdentityOf(coin, ch.row), r, nonce, ch.intents, ch.ledger) && r.stage.Signed?
    requires r.entry.reservationNonce == nonce && r.targetStateSequence == Some(k) && k in ch.states
    requires o.recoveryPackage == Some(ch.states[k].recoveryPackage)
    ensures SaysSigned(c, ch, nonce, o, k)
  {
    SignatureHolds(c, IdentityOf(coin, ch.row), r, nonce, o.signedResult);
    TargetHash(c, coin, ch, k);
    PackageAt(c, coin, ch, k);
    TargetParts(c, IdentityOf(coin, ch.row), r, nonce, ch.intents, ch.ledger, k);
    SignedParts(c, ch, nonce, r, o, k);
  }

  lemma TargetParts(c: Crypto, id: Identity, r: Reservation, nonce: Bytes32, intents: map<u64, Intent>,
                    ledger: seq<LedgerRow>, k: u64)
    requires AcceptedOk(c, id, r, nonce, intents, ledger) && r.stage.Signed? && r.targetStateSequence == Some(k)
    ensures 1 <= k <= |ledger| && k in intents && r.targetCheckpointHash == Some(intents[k].checkpointHash)
    ensures r.ledgerWritten && ledger[k - 1].entry == r.entry
    ensures r.observedPeakHeight < r.acceptanceCutoffHeight
    ensures r.observedPeakHeight + id.terms.freezeBlocks < r.scheduledCloseHeight
  {
  }

  lemma SignedParts(c: Crypto, ch: Channel, nonce: Bytes32, r: Reservation, o: ReservationOutcome, k: u64)
    requires CarriesPrefix(c, ch, k) && k in ch.intents && ch.ledger[k - 1].entry.reservationNonce == nonce
    requires o.recoveryPackage == Some(ch.states[k].recoveryPackage)
    requires ch.states[k].recoveryPackage.officialState.checkpoint.stateSequence == k
    requires var said := o.signedResult.result;
             && said.ledgerWritten && said.stateSequence == Some(k)
             && said.checkpointHash ==
                Some(CheckpointDigest(c, ch.row.terms, ch.states[k].recoveryPackage.officialState.checkpoint))
             && said.observedPeakHeight < said.acceptanceCutoffHeight
             && said.observedPeakHeight + ch.row.terms.freezeBlocks < said.scheduledCloseHeight
    ensures SaysSigned(c, ch, nonce, o, k)
  {
  }

  lemma RejectedSays(c: Crypto, id: Identity, r: Reservation, nonce: Bytes32, o: ReservationOutcome)
    requires ResultOk(c, id, r, nonce, o.signedResult) && o.recoveryPackage.None?
    requires !r.ledgerWritten && r.targetStateSequence.None? && r.targetCheckpointHash.None? && !NoRoom(r.targetStatus)
    ensures SaysRefused(o)
  {
  }

  lemma SignedIffInLedger(c: Crypto, coin: Bytes32, ch: Channel, nonce: Bytes32)
    requires ChannelOk(c, coin, ch) && nonce in ch.reservations && ch.reservations[nonce].stage.Signed?
    ensures IsSignedTarget(ch.reservations[nonce]) <==> nonce in Nonces(Entries(ch.ledger))
  {
    LedgerIsSigned(c, coin, ch);
    assert nonce in SignedNonces(ch) <==> IsSignedTarget(ch.reservations[nonce]);
  }

  /** An answer about a well-formed channel, against its ledger. */
  lemma AnswerOnChannel(c: Crypto, db: Database, coin: Bytes32, nonce: Bytes32, o: ReservationOutcome) returns (k: nat)
    requires DatabaseOk(c, db) && AnswerOk(db, coin, nonce, o)
    ensures SaidBy(c, db[coin].row.terms, coin, nonce, o.signedResult)
    ensures o.signedResult.result.status == ReservationStatus.Signed <==> nonce in Nonces(Entries(db[coin].ledger))
    ensures if o.signedResult.result.status == ReservationStatus.Signed then SaysSigned(c, db[coin], nonce, o, k)
            else SaysRefused(o)
  {
    var ch, id, r := db[coin], IdentityOf(coin, db[coin].row), db[coin].reservations[nonce];
    k := 0;
    assert ChannelOk(c, coin, db[coin]);
    AnsweredRow(c, coin, ch, nonce);
    SignatureHolds(c, id, r, nonce, o.signedResult);
    SignedIffInLedger(c, coin, ch, nonce);
    if IsSignedTarget(r) {
      k := r.targetStateSequence.value;
      AcceptedSays(c, coin, ch, nonce, r, o, k);
    } else {
      RejectedSays(c, id, r, nonce, o);
    }
  }

  lemma AnsweredRow(c: Crypto, coin: Bytes32, ch: Channel, nonce: Bytes32)
    requires ChannelOk(c, coin, ch) && nonce in ch.reservations && ch.reservations[nonce].stage.Signed?
    ensures var id, r := IdentityOf(coin, ch.row), ch.reservations[nonce];
            && r.entry.reservationNonce == nonce
            && r.signedResult.Some? && ResultOk(c, id, r, nonce, r.signedResult.value)
            && (if IsSignedTarget(r) then AcceptedOk(c, id, r, nonce, ch.intents, ch.ledger)
                else && !r.ledgerWritten && r.targetStateSequence.None? && r.targetCheckpointHash.None?
                     && !NoRoom(r.targetStatus))
  {
    ChannelParts(c, coin, ch);
    assert ReservationOk(c, IdentityOf(coin, ch.row), ch.reservations[nonce], nonce, ch.intents, ch.ledger);
    RowParts(c, IdentityOf(coin, ch.row), ch.reservations[nonce], nonce, ch.intents, ch.ledger);
  }

  /** Over every run, an answer is signed by the HUB over this very reservation. It says the reservation is signed if
      and only if its entry is in the ledger, and then carries the package and the hash of the state that entry made;
      any other answer carries no state. */
  lemma AnswersAreTrue(c: Crypto, events: seq<Event>, i: nat) returns (k: nat)
    requires i < |Run(c, events).answers|
    ensures Run(c, events).answers[i].coin in Run(c, events).db
    ensures var a := Run(c, events).answers[i];
            var ch := Run(c, events).db[a.coin];
            && SaidBy(c, ch.row.terms, a.coin, a.nonce, a.outcome.signedResult)
            && (a.outcome.signedResult.result.status == ReservationStatus.Signed <==>
                a.nonce in Nonces(Entries(ch.ledger)))
            && (if a.outcome.signedResult.result.status == ReservationStatus.Signed
                then SaysSigned(c, ch, a.nonce, a.outcome, k)
                else SaysRefused(a.outcome))
  {
    var w := Run(c, events);
    RunOk(c, events);
    k := AnswerOnChannel(c, w.db, w.answers[i].coin, w.answers[i].nonce, w.answers[i].outcome);
  }

  /** What a call is about: it stays so to its end. */
  function RowOf(task: Task): (Bytes32, Bytes32) {
    match task
    case Begin(request, _, _, _, _) => (request.fundingCoinId, request.entry.reservationNonce)
    case ToFindChannel(job) => (job.coin, job.nonce)
    case ToSignResult(job, _) => (job.coin, job.nonce)
    case ToSignState(job, _, _, _) => (job.coin, job.nonce)
    case ToPackage(job, _, _, _, _) => (job.coin, job.nonce)
    case ToCommit(job, _, _, _, _) => (job.coin, job.nonce)
    case ToReadChannel(coin, nonce) => (coin, nonce)
    case ToReadAnswer(coin, nonce, _) => (coin, nonce)
    case ToReadPackage(coin, nonce, _, _) => (coin, nonce)
    case Done(coin, nonce, _) => (coin, nonce)
  }

  lemma BeginKeepsRow(c: Crypto, db: Database, task: Task)
    requires task.Begin?
    ensures RowOf(Advance(c, db, task).task) == RowOf(task)
  {
  }

  lemma WorkKeepsRow(c: Crypto, db: Database, task: Task)
    requires task.ToFindChannel? || task.ToSignResult? || task.ToSignState? || task.ToPackage? || task.ToCommit?
    ensures RowOf(Advance(c, db, task).task) == RowOf(task)
  {
    match task
    case ToFindChannel(job) => FindKeepsRow(c, db, job);
    case ToSignResult(job, row) => ResultKeepsRow(c, db, job, row);
    case ToSignState(job, row, r, signed) => StateKeepsRow(c, db, job, row, r, signed);
    case ToPackage(job, row, r, signed, state) => PackageKeepsRow(c, db, job, row, r, signed, state);
    case ToCommit(job, row, r, signed, work) => CommitKeepsRow(c, db, job, row, r, signed, work);
  }

  lemma FindKeepsRow(c: Crypto, db: Database, job: Job)
    ensures RowOf(AdvanceFindChannel(c, db, job).task) == (job.coin, job.nonce)
  {
  }

  lemma ResultKeepsRow(c: Crypto, db: Database, job: Job, row: ChannelRow)
    ensures RowOf(AdvanceSignResult(c, db, job, row).task) == (job.coin, job.nonce)
  {
  }

  lemma StateKeepsRow(c: Crypto, db: Database, job: Job, row: ChannelRow, r: Reservation,
                      signed: SignedReservationResult)
    ensures RowOf(AdvanceSignState(c, db, job, row, r, signed).task) == (job.coin, job.nonce)
  {
  }

  lemma PackageKeepsRow(c: Crypto, db: Database, job: Job, row: ChannelRow, r: Reservation,
                        signed: SignedReservationResult, state: OfficialState)
    ensures RowOf(AdvancePackage(c, db, job, row, r, signed, state).task) == (job.coin, job.nonce)
  {
  }

  lemma CommitKeepsRow(c: Crypto, db: Database, job: Job, row: ChannelRow, r: Reservation,
                       signed: SignedReservationResult, work: Option<(OfficialState, RecoveryPackage)>)
    ensures RowOf(AdvanceCommit(c, db, job, row, r, signed, work).task) == (job.coin, job.nonce)
  {
  }

  lemma ReadingKeepsRow(c: Crypto, db: Database, task: Task)
    requires task.ToReadChannel? || task.ToReadAnswer? || task.ToReadPackage? || task.Done?
    ensures RowOf(Advance(c, db, task).task) == RowOf(task)
  {
  }

  lemma AdvanceKeepsRow(c: Crypto, db: Database, task: Task)
    ensures RowOf(Advance(c, db, task).task) == RowOf(task)
  {
    if task.Begin? {
      BeginKeepsRow(c, db, task);
    } else if task.ToReadChannel? || task.ToReadAnswer? || task.ToReadPackage? || task.Done? {
      ReadingKeepsRow(c, db, task);
    } else {
      WorkKeepsRow(c, db, task);
    }
  }

  /** Where a call about this row has got to, in a store that has only grown since it began. */
  ghost predicate Sound(c: Crypto, before: Database, row: (Bytes32, Bytes32), db: Database, task: Task) {
    DatabaseOk(c, db) && Grows(before, db) && TaskOk(c, db, task) && RowOf(task) == row
  }

  /** What every step keeps, any number of steps keeps. */
  lemma {:induction false} StepsKeep(advance: (Database, Task) -> Step, good: (Database, Task) -> bool, db: Database,
                                     task: Task, n: nat)
    requires forall u, t {:trigger advance(u, t)} :: good(u, t) ==> good(advance(u, t).db, advance(u, t).task)
    requires good(db, task)
    ensures good(Steps(advance, db, task, n).db, Steps(advance, db, task, n).task)
    decreases n
  {
    if n > 0 && !task.Done? {
      StepsKeep(advance, good, advance(db, task).db, advance(db, task).task, n - 1);
    }
  }

  lemma OneStepIsSound(c: Crypto, before: Database, row: (Bytes32, Bytes32), db: Database, task: Task)
    requires Sound(c, before, row, db, task)
    ensures Sound(c, before, row, Advance(c, db, task).db, Advance(c, db, task).task)
  {
    AdvanceOk(c, db, task);
    AdvanceKeepsRow(c, db, task);
    GrowsTransitive(before, db, Advance(c, db, task).db);
  }

  lemma CallIsSound(c: Crypto, db: Database, task: Task, n: nat)
    requires DatabaseOk(c, db) && TaskOk(c, db, task)
    ensures var end := Steps(Advancing(c), db, task, n); Sound(c, db, RowOf(task), end.db, end.task)
  {
    var row, good := RowOf(task), SoundFor(c, db, RowOf(task));
    DatabaseGrowsReflexive(db);
    forall u, t | good(u, t) ensures good(Advancing(c)(u, t).db, Advancing(c)(u, t).task) {
      OneStepIsSound(c, db, row, u, t);
    }
    StepsKeep(Advancing(c), good, db, task, n);
  }

  ghost function SoundFor(c: Crypto, before: Database, row: (Bytes32, Bytes32)): (Database, Task) -> bool {
    (db, task) => Sound(c, before, row, db, task)
  }

  predicate Answered(end: Step) {
    end.task.Done? && end.task.result.Success?
  }

  /** The answer is signed by the HUB, and says of the reservation what the ledger says. */
  ghost predicate AnswersTruly(c: Crypto, end: Step, k: nat)
    requires Answered(end)
  {
    var coin, nonce, o := end.task.coin, end.task.nonce, end.task.result.value;
    && coin in end.db
    && SaidBy(c, end.db[coin].row.terms, coin, nonce, o.signedResult)
    && (o.signedResult.result.status == ReservationStatus.Signed <==> nonce in Nonces(Entries(end.db[coin].ledger)))
    && (if o.signedResult.result.status == ReservationStatus.Signed then SaysSigned(c, end.db[coin], nonce, o, k)
        else SaysRefused(o))
  }

  lemma TaskAnswers(c: Crypto, end: Step) returns (k: nat)
    requires Answered(end) && DatabaseOk(c, end.db) && TaskOk(c, end.db, end.task)
    ensures AnswersTruly(c, end, k)
  {
    k := AnswerOnChannel(c, end.db, end.task.coin, end.task.nonce, end.task.result.value);
  }

  /** And so is the answer of a call that nothing interrupts, from any well-formed store: a reservation, the
      finalization of one row, or a lookup. */
  lemma CallAnswersTruly(c: Crypto, db: Database, call: Call, n: nat) returns (k: nat)
    requires DatabaseOk(c, db)
    requires Answered(Steps(Advancing(c), db, FirstTask(call), n))
    ensures AnswersTruly(c, Steps(Advancing(c), db, FirstTask(call), n), k)
    ensures RowOf(Steps(Advancing(c), db, FirstTask(call), n).task) == RowOf(FirstTask(call))
  {
    CallIsSound(c, db, FirstTask(call), n);
    k := TaskAnswers(c, Steps(Advancing(c), db, FirstTask(call), n));
  }

  // ---------------------------------------------------------------- what recovery returns

  /** A finalization of a row that succeeds leaves a grown store that answers it so. */
  ghost predicate AnswersRows(c: Crypto, finalize: (Database, HubClosure.PendingRow) -> Step) {
    forall db, row {:trigger finalize(db, row)} :: DatabaseOk(c, db) ==>
      EndsWell(c, db, row, finalize(db, row))
  }

  ghost predicate EndsWell(c: Crypto, before: Database, row: HubClosure.PendingRow, end: Step) {
    && DatabaseOk(c, end.db) && Grows(before, end.db)
    && (Answered(end) ==> AnswerOk(end.db, row.0, row.1, end.task.result.value))
  }

  lemma SoundEndsWell(c: Crypto, before: Database, row: HubClosure.PendingRow, end: Step)
    requires Sound(c, before, row, end.db, end.task)
    ensures EndsWell(c, before, row, end)
  {
  }

  lemma FinalizingAnswersRows(c: Crypto, key: SecretKey)
    ensures AnswersRows(c, HubClosure.Finalizing(c, key))
  {
    forall db, row: HubClosure.PendingRow | DatabaseOk(c, db)
      ensures EndsWell(c, db, row, HubClosure.Finalizing(c, key)(db, row))
    {
      FinalizationAnswers(c, db, row, key);
    }
  }

  lemma FinalizationAnswers(c: Crypto, db: Database, row: HubClosure.PendingRow, key: SecretKey)
    requires DatabaseOk(c, db)
    ensures EndsWell(c, db, row, Finish(c, db, ToFindChannel(Job(row.0, row.1, key, NoFailure))))
  {
    var task := ToFindChannel(Job(row.0, row.1, key, NoFailure));
    CallIsSound(c, db, task, 9);
    SoundEndsWell(c, db, row, Steps(Advancing(c), db, task, 9));
  }

  /** The answers returned are those of the rows asked for, in order. */
  ghost predicate AnswersEach(c: Crypto, db: Database, rows: seq<HubClosure.PendingRow>,
                              outcomes: seq<ReservationOutcome>)
  {
    && DatabaseOk(c, db) && |outcomes| == |rows|
    && forall i :: 0 <= i < |rows| ==> AnswerOk(db, rows[i].0, rows[i].1, outcomes[i])
  }

  lemma {:induction false} EachIsAnswered(c: Crypto, finalize: (Database, HubClosure.PendingRow) -> Step, db: Database,
                                          rows: seq<HubClosure.PendingRow>)
    requires AnswersRows(c, finalize) && DatabaseOk(c, db)
    requires HubClosure.FinalizeEach(finalize, db, rows).outcomes.Success?
    ensures var r := HubClosure.FinalizeEach(finalize, db, rows);
            Grows(db, r.db) && AnswersEach(c, r.db, rows, r.outcomes.value)
    decreases |rows|
  {
    if rows == [] {
      DatabaseGrowsReflexive(db);
    } else {
      var end, r := finalize(db, rows[0]), HubClosure.FinalizeEach(finalize, db, rows);
      EachIsAnswered(c, finalize, end.db, rows[1..]);
      GrowsTransitive(db, end.db, r.db);
      AnswerStable(end.db, r.db, rows[0].0, rows[0].1, end.task.result.value);
      assert r.outcomes.value[1..] == HubClosure.FinalizeEach(finalize, end.db, rows[1..]).outcomes.value;
      forall i | 0 <= i < |rows| ensures AnswerOk(r.db, rows[i].0, rows[i].1, r.outcomes.value[i]) {
        if i > 0 {
          assert rows[i] == rows[1..][i - 1] && r.outcomes.value[i] == r.outcomes.value[1..][i - 1];
        }
      }
    }
  }

  /** A recovery that succeeds returns one answer for each row it was given, in order, signed by the HUB and true of the
      store it leaves. */
  lemma RecoveryAnswersTruly(c: Crypto, db: Database, rows: seq<HubClosure.PendingRow>, key: SecretKey, i: nat)
    returns (k: nat)
    requires DatabaseOk(c, db) && HubClosure.RecoverAll(c, db, rows, key).outcomes.Success? && i < |rows|
    ensures |HubClosure.RecoverAll(c, db, rows, key).outcomes.value| == |rows|
    ensures var r := HubClosure.RecoverAll(c, db, rows, key);
            AnswersTruly(c, Step(r.db, [], Done(rows[i].0, rows[i].1, Success(r.outcomes.value[i]))), k)
  {
    var r := HubClosure.RecoverAll(c, db, rows, key);
    FinalizingAnswersRows(c, key);
    EachIsAnswered(c, HubClosure.Finalizing(c, key), db, rows);
    k := AnswerOnChannel(c, r.db, rows[i].0, rows[i].1, r.outcomes.value[i]);
  }

  // ---------------------------------------------------------------- whose request it answers

  /** The verdict of a gate, said of the recorded row and the snapshots. */
  predicate VerdictOn(row: ChannelRow, gate: Gate, verdict: Option<ReservationStatus>) {
    if gate.Manual? then verdict == if gate.height < row.acceptanceCutoffHeight then None else Some(RejectedFreezing)
    else Warrants(row, gate, verdict)
  }

  /** The status a first transaction decides: the authorization first, then the gate, then the ledger. */
  predicate StatusOn(c: Crypto, row: ChannelRow, request: ReservationRequest, gate: Gate, status: ReservationStatus) {
    if VerifyAuthorization(c, row.terms, request.fundingCoinId, request.entry, request.signature).Fail? then
      status == InvalidAuthorization
    else
      || (VerdictOn(row, gate, Some(status)))
      || (VerdictOn(row, gate, None) && (status == ReservationStatus.Signed || NoRoom(status)))
  }

  /** What a stored row owes to the request and the gate it was prepared with, and to the channel before and after. */
  ghost predicate DecidedOn(c: Crypto, before: ChannelRow, after: ChannelRow, request: ReservationRequest, gate: Gate,
                            r: Reservation)
  {
    && r.requestId == request.requestId && r.entry == request.entry && r.signature == request.signature
    && r.authorizationHash == AuthorizationDigest(c, before.terms, request.fundingCoinId, request.entry)
    && StatusOn(c, before, request, gate, r.targetStatus)
    && r.observedPeakHeight == HeightOf(before, gate)
    && r.acceptanceCutoffHeight == after.acceptanceCutoffHeight && r.scheduledCloseHeight == after.scheduledCloseHeight
  }

  lemma DecisionHasStatus(c: Crypto, db: Database, request: ReservationRequest, gate: Gate, d: Decision)
    requires request.fundingCoinId in db && ChannelOk(c, request.fundingCoinId, db[request.fundingCoinId])
    requires request.entry.reservationNonce !in db[request.fundingCoinId].reservations
    requires AuthorizationHash(c, db[request.fundingCoinId].row.terms, request.fundingCoinId, request.entry).Success?
    requires EvaluateGate(db[request.fundingCoinId].row, gate).Success?
    requires var row := db[request.fundingCoinId].row;
             var (after, gated) := EvaluateGate(row, gate).value;
             var authorization := AuthorizationDigest(c, row.terms, request.fundingCoinId, request.entry);
             Decide(c, db, request, after, authorization, gated) == Success(d)
    ensures StatusOn(c, db[request.fundingCoinId].row, request, gate,
                     if d.Accept? then ReservationStatus.Signed else d.status)
  {
    var row := db[request.fundingCoinId].row;
    var (after, gated) := EvaluateGate(row, gate).value;
    var authorization := AuthorizationDigest(c, row.terms, request.fundingCoinId, request.entry);
    GateKeepsCutoff(row, gate);
    AuthorizationChecked(c, row.terms, request.fundingCoinId, request.entry, request.signature);
    if gated.blocking.Some? {
      GateStatuses(row, gate);
    }
    DecideOutcome(c, db, request, after, authorization, gated, d);
    VerdictHolds(row, gate);
    if VerifyHash(c, row.terms.userPublicKey, authorization, request.signature).Pass? && gated.blocking.None? {
      OpenDecides(c, db, request.fundingCoinId, after, request.entry, request.signature, d);
      OpenDecision(c, db, request.fundingCoinId, after, request.entry, request.signature);
      OpenVerdictCases(c, request.fundingCoinId, db[request.fundingCoinId], after, request.entry, d);
    }
  }

  lemma VerdictHolds(row: ChannelRow, gate: Gate)
    requires EvaluateGate(row, gate).Success?
    ensures VerdictOn(row, gate, EvaluateGate(row, gate).value.1.blocking)
  {
    if gate.Chain? {
      VerdictIsWarrantedIff(row, gate, EvaluateGate(row, gate).value.1.blocking);
    }
  }

  /** Event `k` of the run is the first transaction that wrote this row. */
  ghost predicate PreparedAt(c: Crypto, events: seq<Event>, k: nat, coin: Bytes32, nonce: Bytes32, r: Reservation) {
    && k < |events|
    && (var w, event := Run(c, events[..k]), events[k];
        && Prepares(c, w, event, coin)
        && w.tasks[event.id].request.entry.reservationNonce == nonce
        && coin in Run(c, events[..k + 1]).db
        && DecidedOn(c, w.db[coin].row, Run(c, events[..k + 1]).db[coin].row, w.tasks[event.id].request,
                     w.tasks[event.id].gate, r))
  }

  lemma PreparedRowIsDecided(c: Crypto, db: Database, request: ReservationRequest, gate: Gate, key: SecretKey, now: u64)
    requires DatabaseOk(c, db)
    requires Prepare(c, db, request, gate, key, now).Success? && Prepare(c, db, request, gate, key, now).value.Fresh?
    ensures var coin, nonce := request.fundingCoinId, request.entry.reservationNonce;
            var after := Prepare(c, db, request, gate, key, now).value.db;
            && coin in db && coin in after && nonce in after[coin].reservations
            && after[coin].reservations.Keys == db[coin].reservations.Keys + {nonce}
            && DecidedOn(c, db[coin].row, after[coin].row, request, gate, after[coin].reservations[nonce])
  {
    FreshIsWritten(c, db, request, gate, key, now);
    FreshPreparation(c, db, request, gate, key, now);
    ReservationIsRead(c, db, request, key, now);
    var coin := request.fundingCoinId;
    var row := db[coin].row;
    assert ChannelOk(c, coin, db[coin]);
    HubReads.ChannelLoadsIff(c, db, coin);
    var (gated, verdict) := EvaluateGate(row, gate).value;
    var d := Decide(c, db, request, gated, AuthorizationDigest(c, row.terms, coin, request.entry), verdict).value;
    DecisionHasStatus(c, db, request, gate, d);
    GateRecordsPeak(row, gate);
  }

  lemma DecidedStays(c: Crypto, before: ChannelRow, after: ChannelRow, request: ReservationRequest, gate: Gate,
                     r: Reservation, later: Reservation)
    requires DecidedOn(c, before, after, request, gate, r) && Later(r, later)
    ensures DecidedOn(c, before, after, request, gate, later)
  {
  }

  lemma PreparedStays(c: Crypto, events: seq<Event>, k: nat, coin: Bytes32, nonce: Bytes32, r: Reservation,
                      later: Reservation)
    requires events != [] && PreparedAt(c, events[..|events| - 1], k, coin, nonce, r) && Later(r, later)
    ensures PreparedAt(c, events, k, coin, nonce, later)
  {
    var front := events[..|events| - 1];
    assert front[..k] == events[..k] && front[..k + 1] == events[..k + 1];
    var w, event := Run(c, events[..k]), events[k];
    DecidedStays(c, w.db[coin].row, Run(c, events[..k + 1]).db[coin].row, w.tasks[event.id].request,
                 w.tasks[event.id].gate, r, later);
  }

  lemma RowNeedsChannel(c: Crypto, w: World, event: Event, coin: Bytes32, nonce: Bytes32)
    requires WorldOk(c, w) && coin in Apply(c, w, event).db && nonce in Apply(c, w, event).db[coin].reservations
    ensures coin in w.db
  {
    if coin !in w.db {
      NewChannelIsRegistered(c, w, event, coin);
    }
  }

  lemma RowOnlySigned(c: Crypto, w: World, event: Event, coin: Bytes32, nonce: Bytes32)
    requires WorldOk(c, w) && coin in w.db && nonce in w.db[coin].reservations
    ensures var after := Apply(c, w, event).db;
            && coin in after && nonce in after[coin].reservations
            && Later(w.db[coin].reservations[nonce], after[coin].reservations[nonce])
  {
    ApplyContinues(c, w, event);
    assert Extended(w.db[coin], Apply(c, w, event).db[coin]);
  }

  predicate HasRow(c: Crypto, events: seq<Event>, coin: Bytes32, nonce: Bytes32) {
    coin in Run(c, events).db && nonce in Run(c, events).db[coin].reservations
  }

  /** Event `k` wrote the row the run has. */
  ghost predicate WroteAt(c: Crypto, events: seq<Event>, k: nat, coin: Bytes32, nonce: Bytes32) {
    && HasRow(c, events, coin, nonce)
    && PreparedAt(c, events, k, coin, nonce, Run(c, events).db[coin].reservations[nonce])
  }

  lemma RunOfMore(c: Crypto, front: seq<Event>, event: Event)
    ensures Run(c, front + [event]) == Apply(c, Run(c, front), event)
  {
    assert (front + [event])[..|front|] == front;
  }

  lemma OldRowIsPrepared(c: Crypto, front: seq<Event>, event: Event, k: nat, coin: Bytes32, nonce: Bytes32)
    requires WroteAt(c, front, k, coin, nonce)
    ensures WroteAt(c, front + [event], k, coin, nonce)
  {
    var w, events := Run(c, front), front + [event];
    assert events[..|events| - 1] == front;
    RunOk(c, front);
    RunOfMore(c, front, event);
    RowOnlySigned(c, w, event, coin, nonce);
    PreparedStays(c, events, k, coin, nonce, w.db[coin].reservations[nonce],
                  Apply(c, w, event).db[coin].reservations[nonce]);
  }

  lemma NewRowIsPrepared(c: Crypto, front: seq<Event>, event: Event, coin: Bytes32, nonce: Bytes32)
    requires !HasRow(c, front, coin, nonce) && HasRow(c, front + [event], coin, nonce)
    ensures WroteAt(c, front + [event], |front|, coin, nonce)
  {
    var events, w := front + [event], Run(c, front);
    assert events[..|front|] == front && events[..|front| + 1] == events;
    RunOk(c, front);
    RunOfMore(c, front, event);
    RowNeedsChannel(c, w, event, coin, nonce);
    EventRecords(c, w, event, coin);
    var task := w.tasks[event.id];
    PreparedRowIsDecided(c, w.db, task.request, task.gate, task.key, task.now);
  }

  /** Every stored row was written by one first transaction of the run, and says what that one decided. */
  lemma {:induction false} RowIsPrepared(c: Crypto, events: seq<Event>, coin: Bytes32, nonce: Bytes32) returns (k: nat)
    requires HasRow(c, events, coin, nonce)
    ensures WroteAt(c, events, k, coin, nonce)
  {
    var front, event := events[..|events| - 1], events[|events| - 1];
    assert events == front + [event];
    if HasRow(c, front, coin, nonce) {
      k := RowIsPrepared(c, front, coin, nonce);
      OldRowIsPrepared(c, front, event, k, coin, nonce);
    } else {
      k := |front|;
      NewRowIsPrepared(c, front, event, coin, nonce);
    }
  }

  /** What an answer says of the request and the gate its reservation was prepared with. */
  ghost predicate Answers(c: Crypto, before: ChannelRow, after: ChannelRow, request: ReservationRequest, gate: Gate,
                          said: ReservationResult)
  {
    && said.requestId == request.requestId
    && said.authorizationHash == AuthorizationDigest(c, before.terms, request.fundingCoinId, request.entry)
    && StatusOn(c, before, request, gate, said.status)
    && said.observedPeakHeight == HeightOf(before, gate)
    && said.acceptanceCutoffHeight == after.acceptanceCutoffHeight
    && said.scheduledCloseHeight == after.scheduledCloseHeight
  }

  lemma RowAnswers(c: Crypto, db: Database, coin: Bytes32, nonce: Bytes32, o: ReservationOutcome, before: ChannelRow,
                   after: ChannelRow, request: ReservationRequest, gate: Gate)
    requires DatabaseOk(c, db) && AnswerOk(db, coin, nonce, o)
    requires DecidedOn(c, before, after, request, gate, db[coin].reservations[nonce])
    ensures Answers(c, before, after, request, gate, o.signedResult.result)
  {
    assert ChannelOk(c, coin, db[coin]);
    AnsweredRow(c, coin, db[coin], nonce);
    SignatureHolds(c, IdentityOf(coin, db[coin].row), db[coin].reservations[nonce], nonce, o.signedResult);
  }

  /** Over every run, an answer is about the first transaction that wrote its row, event `k`: it repeats that request's
      id and authorization hash, gives the status that request and that gate call for, and the height observed and
      the heights left then, whoever asks and however much later. */
  lemma AnswersTheFirstRequest(c: Crypto, events: seq<Event>, i: nat) returns (k: nat)
    requires i < |Run(c, events).answers|
    ensures k < |events| && Prepares(c, Run(c, events[..k]), events[k], Run(c, events).answers[i].coin)
    ensures Run(c, events).answers[i].coin in Run(c, events[..k + 1]).db
    ensures var a, w := Run(c, events).answers[i], Run(c, events[..k]);
            var task := w.tasks[events[k].id];
            && task.request.entry.reservationNonce == a.nonce
            && Answers(c, w.db[a.coin].row, Run(c, events[..k + 1]).db[a.coin].row, task.request, task.gate,
                       a.outcome.signedResult.result)
  {
    var w := Run(c, events);
    var a := w.answers[i];
    RunOk(c, events);
    k := RowIsPrepared(c, events, a.coin, a.nonce);
    var u := Run(c, events[..k]);
    RowAnswers(c, w.db, a.coin, a.nonce, a.outcome, u.db[a.coin].row, Run(c, events[..k + 1]).db[a.coin].row,
               u.tasks[events[k].id].request, u.tasks[events[k].id].gate);
  }
}
