/** Crash recovery: what finalizing a prepared row yields, when it can, and why crashes leave no trace. */
module HubRecovery {
  import opened ByteStrings
  import opened Protocol
  import opened Types
  import opened Ledgers
  import opened Packages
  import opened HubRecords
  import opened HubGate
  import opened HubSteps
  import opened HubInvariant
  import opened HubReads
  import opened HubDecide
  import opened HubCommit
  import opened HubMachine
  import opened HubRuns

  // ---------------------------------------------------------------- what is fixed at preparation

  function ResultOf(c: Crypto, key: SecretKey, terms: ChannelTerms, coin: Bytes32, nonce: Bytes32, r: Reservation)
    : SignedReservationResult
  {
    var result := ResultFrom(r, terms, coin, nonce);
    SignedReservationResult(result, SignatureOf(c, ResultSigned(key, result)))
  }

  function StateOf(c: Crypto, key: SecretKey, terms: ChannelTerms, k: LedgerCheckpoint): OfficialState {
    OfficialState(k, SignatureOf(c, StateSigned(key, terms, k)))
  }

  /** The state and package of an acceptance, from its intent and the ledger before it. */
  function WorkOf(c: Crypto, key: SecretKey, coin: Bytes32, ch: Channel, r: Reservation)
    : Option<(OfficialState, RecoveryPackage)>
  {
    if !IsSignedTarget(r) || r.targetStateSequence.None? || r.targetStateSequence.value !in ch.intents then None
    else
      var state := StateOf(c, key, ch.row.terms, ch.intents[r.targetStateSequence.value].checkpoint);
      Some((state, BuildPackage(ch.row, coin, state, Entries(ch.ledger) + [r.entry],
                                Signatures(ch.ledger) + [r.signature])))
  }

  predicate Open(ch: Channel, nonce: Bytes32) {
    nonce in ch.reservations && ch.reservations[nonce].stage.Prepared?
  }

  function OutcomeFor(c: Crypto, key: SecretKey, coin: Bytes32, ch: Channel, nonce: Bytes32): ReservationOutcome
    requires nonce in ch.reservations
  {
    var r := ch.reservations[nonce];
    var work := WorkOf(c, key, coin, ch, r);
    ReservationOutcome(ResultOf(c, key, ch.row.terms, coin, nonce, r), if work.Some? then Some(work.value.1) else None)
  }

  /** The channel once the row is finalized. */
  function Completed(c: Crypto, key: SecretKey, coin: Bytes32, ch: Channel, nonce: Bytes32): Channel
    requires nonce in ch.reservations
  {
    var r := ch.reservations[nonce];
    Finalized(ch, nonce, r, ResultOf(c, key, ch.row.terms, coin, nonce, r), WorkOf(c, key, coin, ch, r))
  }

  // ---------------------------------------------------------------- the signatures verify

  lemma ResultVerifies(c: Crypto, key: SecretKey, id: Identity, r: Reservation, nonce: Bytes32,
                       intents: map<u64, Intent>, ledger: seq<LedgerRow>)
    requires ReservationOk(c, id, r, nonce, intents, ledger)
    requires SignsCorrectly(c) && c.publicKey(key) == id.terms.hubStatePublicKeyA
    ensures ValidateResult(ResultFrom(r, id.terms, id.coin, nonce)).Pass?
    ensures ResultOk(c, id, r, nonce, ResultOf(c, key, id.terms, id.coin, nonce, r))
  {
    var result := ResultFrom(r, id.terms, id.coin, nonce);
    assert ValidateResult(result).Pass?;
    assert VerifyHash(c, c.publicKey(key), ResultDigest(c, result), c.blsSign(key, ResultDigest(c, result))).Pass?;
  }

  lemma StateVerifies(c: Crypto, key: SecretKey, t: ChannelTerms, k: LedgerCheckpoint)
    requires ValidateCheckpoint(c, t, k).Pass?
    requires SignsCorrectly(c) && c.publicKey(key) == t.hubStatePublicKeyA
    ensures VerifyOfficialState(c, t, StateOf(c, key, t, k)).Pass?
  {
    assert VerifyHash(c, c.publicKey(key), HubStateDigest(c, t, k), c.blsSign(key, HubStateDigest(c, t, k))).Pass?;
  }

  lemma PreparedCheckpoint(c: Crypto, id: Identity, i: Intent, head: Bytes32, ledger: seq<LedgerRow>, r: Reservation)
    requires ValidTerms(c, id.terms) && PreparedIntent(c, id, i, head, ledger, r)
    ensures ValidateCheckpoint(c, id.terms, i.checkpoint).Pass?
    ensures i.checkpoint == CheckpointOf(c, id.terms, id.coin, |ledger| + 1, head, Entries(ledger) + [r.entry])
  {
    CheckpointOfValid(c, id.terms, id.coin, |ledger| + 1, head, Entries(ledger) + [r.entry]);
  }

  lemma AppendedPackageValid(c: Crypto, id: Identity, ledger: seq<LedgerRow>, r: Reservation, head: Bytes32,
                             state: OfficialState, package: RecoveryPackage)
    requires ValidTerms(c, id.terms) && |id.puzzle| <= MAX_CANONICAL_BLOB_BYTES && |ledger| < 64
    requires LedgerOk(c, id, ledger) && ValidLedger(c, id.terms, Entries(ledger) + [r.entry])
    requires VerifyAuthorization(c, id.terms, id.coin, r.entry, r.signature).Pass?
    requires state.checkpoint == CheckpointOf(c, id.terms, id.coin, |ledger| + 1, head, Entries(ledger) + [r.entry])
    requires VerifyOfficialState(c, id.terms, state).Pass?
    requires package == RecoveryPackage(id.coin, id.puzzle, id.terms.fundingAmount, id.terms, state,
                                        Entries(ledger) + [r.entry], Signatures(ledger) + [r.signature])
    ensures ValidPackage(c, package) && ValidatePackage(c, package).Pass?
  {
    AuthorizedAppend(c, id.terms, id.coin, Entries(ledger), Signatures(ledger), r.entry, r.signature);
    AuthorizationsMeaning(c, id.terms, id.coin, Entries(ledger) + [r.entry], Signatures(ledger) + [r.signature]);
    PackageAcceptedIffValid(c, package);
  }

  // ---------------------------------------------------------------- one step after the other

  /** A prepared row that can be finalized: its channel loads, the key is the channel's, and it is not stuck. */
  ghost predicate Finalizable(c: Crypto, key: SecretKey, db: Database, coin: Bytes32, nonce: Bytes32) {
    && coin in db && ChannelOk(c, coin, db[coin]) && HeightsBind(db[coin].row)
    && SignsCorrectly(c) && c.publicKey(key) == db[coin].row.terms.hubStatePublicKeyA
    && Open(db[coin], nonce) && !Stuck(db[coin].reservations[nonce])
  }

  lemma ChannelIsFound(c: Crypto, db: Database, job: Job)
    requires Finalizable(c, job.key, db, job.coin, job.nonce)
    ensures AdvanceFindChannel(c, db, job) == Step(db, [], ToSignResult(job, db[job.coin].row))
  {
    ChannelLoadsIff(c, db, job.coin);
  }

  lemma ResultIsSigned(c: Crypto, db: Database, job: Job)
    requires Finalizable(c, job.key, db, job.coin, job.nonce)
    ensures var ch, r := db[job.coin], db[job.coin].reservations[job.nonce];
            var signed := ResultOf(c, job.key, ch.row.terms, job.coin, job.nonce, r);
            && ResultOk(c, IdentityOf(job.coin, ch.row), r, job.nonce, signed)
            && AdvanceSignResult(c, db, job, ch.row) ==
               Step(db, [ResultSigned(job.key, signed.result)],
                    if IsSignedTarget(r) then ToSignState(job, ch.row, r, signed)
                    else ToCommit(job, ch.row, r, signed, None))
  {
    var ch, r := db[job.coin], db[job.coin].reservations[job.nonce];
    var id := IdentityOf(job.coin, ch.row);
    FindsReservation(c, db, job.coin, job.nonce);
    ChannelParts(c, job.coin, ch);
    assert ReservationOk(c, id, ch.reservations[job.nonce], job.nonce, ch.intents, ch.ledger);
    ResultVerifies(c, job.key, id, r, job.nonce, ch.intents, ch.ledger);
    ResultSigningExactly(c, db, job, ch.row, r);
  }

  lemma ResultSigningExactly(c: Crypto, db: Database, job: Job, row: ChannelRow, r: Reservation)
    requires FindReservation(c, db, row.terms, job.coin, job.nonce) == Success(r) && r.stage.Prepared?
    requires ValidateResult(ResultFrom(r, row.terms, job.coin, job.nonce)).Pass?
    requires VerifySignedResult(c, row.terms, ResultOf(c, job.key, row.terms, job.coin, job.nonce, r)).Pass?
    ensures var signed := ResultOf(c, job.key, row.terms, job.coin, job.nonce, r);
            AdvanceSignResult(c, db, job, row) ==
            Step(db, [ResultSigned(job.key, signed.result)],
                 if IsSignedTarget(r) then ToSignState(job, row, r, signed) else ToCommit(job, row, r, signed, None))
  {
  }

  lemma StateSigningExactly(c: Crypto, db: Database, job: Job, row: ChannelRow, r: Reservation,
                            signed: SignedReservationResult, k: LedgerCheckpoint)
    requires r.targetStateSequence.Some?
             && LoadIntentCheckpoint(db, job.coin, r.targetStateSequence.value) == Success(k)
    requires ValidateCheckpoint(c, row.terms, k).Pass?
    requires VerifyOfficialState(c, row.terms, StateOf(c, job.key, row.terms, k)).Pass?
    ensures AdvanceSignState(c, db, job, row, r, signed) ==
            Step(db, [StateSigned(job.key, row.terms, k)],
                 ToPackage(job, row, r, signed, StateOf(c, job.key, row.terms, k)))
  {
  }

  /** The intent of a prepared acceptance, ready to be signed and packaged. */
  lemma PreparedWork(c: Crypto, key: SecretKey, db: Database, coin: Bytes32, nonce: Bytes32)
    requires Finalizable(c, key, db, coin, nonce) && IsSignedTarget(db[coin].reservations[nonce])
    ensures var ch, r := db[coin], db[coin].reservations[nonce];
            var n, work := |ch.ledger| + 1, WorkOf(c, key, coin, ch, r);
            && n <= 64 && r.targetStateSequence == Some(n) && r.entryIndex == Some(n - 1) && n as u64 in ch.intents
            && work.Some? && work.value.0 == StateOf(c, key, ch.row.terms, ch.intents[n].checkpoint)
            && LoadIntentCheckpoint(db, coin, n) == Success(ch.intents[n].checkpoint)
            && ValidateCheckpoint(c, ch.row.terms, ch.intents[n].checkpoint).Pass?
            && VerifyOfficialState(c, ch.row.terms, work.value.0).Pass?
            && ValidPackage(c, work.value.1) && ValidatePackage(c, work.value.1).Pass?
  {
    var ch, r, id := db[coin], db[coin].reservations[nonce], IdentityOf(coin, db[coin].row);
    ChannelParts(c, coin, ch);
    assert ReservationOk(c, id, ch.reservations[nonce], nonce, ch.intents, ch.ledger);
    PreparedTargetsHead(c, id, ch, nonce, r);
    var n: u64 := |ch.ledger| + 1;
    WorkIsValid(c, key, id, ch, nonce, r, n);
  }

  lemma IntentIsPrepared(c: Crypto, id: Identity, intents: map<u64, Intent>, states: map<u64, StateRow>,
                         ledger: seq<LedgerRow>, reservations: map<Bytes32, Reservation>, n: u64)
    requires n in intents && IntentOk(c, id, intents, states, ledger, reservations, n) && n == |ledger| + 1
    ensures intents[n].reservationNonce in reservations
    ensures PreparedIntent(c, id, intents[n], HashAt(c, id, states, n - 1), ledger,
                           reservations[intents[n].reservationNonce])
  {
  }

  lemma AcceptedIsAuthorized(c: Crypto, id: Identity, r: Reservation, nonce: Bytes32, intents: map<u64, Intent>,
                             ledger: seq<LedgerRow>)
    requires ReservationOk(c, id, r, nonce, intents, ledger) && IsSignedTarget(r)
    ensures VerifyAuthorization(c, id.terms, id.coin, r.entry, r.signature).Pass?
  {
  }

  lemma WorkIs(c: Crypto, key: SecretKey, coin: Bytes32, ch: Channel, r: Reservation, n: u64)
    requires IsSignedTarget(r) && r.targetStateSequence == Some(n) && n in ch.intents
    ensures var state := StateOf(c, key, ch.row.terms, ch.intents[n].checkpoint);
            WorkOf(c, key, coin, ch, r)
            == Some((state, RecoveryPackage(coin, ch.row.fundingPuzzleReveal, ch.row.terms.fundingAmount,
                                            ch.row.terms, state, Entries(ch.ledger) + [r.entry],
                                            Signatures(ch.ledger) + [r.signature])))
  {
  }

  lemma WorkIsValid(c: Crypto, key: SecretKey, id: Identity, ch: Channel, nonce: Bytes32, r: Reservation, n: u64)
    requires id == IdentityOf(id.coin, ch.row) && RowBound(c, id.coin, ch.row) && LedgerOk(c, id, ch.ledger)
    requires SignsCorrectly(c) && c.publicKey(key) == id.terms.hubStatePublicKeyA
    requires n == |ch.ledger| + 1 <= 64 && n in ch.intents && ch.intents[n].reservationNonce == nonce
    requires nonce in ch.reservations && ch.reservations[nonce] == r
    requires IntentOk(c, id, ch.intents, ch.states, ch.ledger, ch.reservations, n)
    requires ReservationOk(c, id, r, nonce, ch.intents, ch.ledger) && IsSignedTarget(r)
             && r.targetStateSequence == Some(n)
    ensures ch.intents[n].stage.Prepared? && ValidateCheckpoint(c, id.terms, ch.intents[n].checkpoint).Pass?
    ensures var work := WorkOf(c, key, id.coin, ch, r);
            && work.Some? && VerifyOfficialState(c, id.terms, work.value.0).Pass?
            && ValidPackage(c, work.value.1) && ValidatePackage(c, work.value.1).Pass?
  {
    var i, head := ch.intents[n], HashAt(c, id, ch.states, n - 1);
    IntentIsPrepared(c, id, ch.intents, ch.states, ch.ledger, ch.reservations, n);
    PreparedCheckpoint(c, id, i, head, ch.ledger, r);
    StateVerifies(c, key, id.terms, i.checkpoint);
    AcceptedIsAuthorized(c, id, r, nonce, ch.intents, ch.ledger);
    WorkIs(c, key, id.coin, ch, r, n);
    var work := WorkOf(c, key, id.coin, ch, r).value;
    AppendedPackageValid(c, id, ch.ledger, r, head, work.0, work.1);
  }

  lemma PackagingExactly(c: Crypto, db: Database, job: Job, row: ChannelRow, r: Reservation,
                         signed: SignedReservationResult, state: OfficialState, package: RecoveryPackage)
    requires job.coin in db && LoadLedger(c, db, job.coin) == Success(db[job.coin].ledger)
    requires package == BuildPackage(row, job.coin, state, Entries(db[job.coin].ledger) + [r.entry],
                                     Signatures(db[job.coin].ledger) + [r.signature])
    requires ValidatePackage(c, package).Pass?
    ensures AdvancePackage(c, db, job, row, r, signed, state)
            == Step(db, [], ToCommit(job, row, r, signed, Some((state, package))))
  {
  }

  lemma CommittingExactly(c: Crypto, db: Database, job: Job, row: ChannelRow, r: Reservation,
                          signed: SignedReservationResult, work: Option<(OfficialState, RecoveryPackage)>,
                          after: Database)
    requires Commit(c, db, job.coin, job.nonce, row.terms, r, signed, work) == Success(Some(after))
    ensures AdvanceCommit(c, db, job, row, r, signed, work) ==
            if job.point.AfterStateSignature? then Stop(db, [], job.coin, job.nonce, InjectedFailure(job.point))
            else Step(after, [], Done(job.coin, job.nonce,
                   Success(ReservationOutcome(signed, if work.Some? then Some(work.value.1) else None))))
  {
  }

  lemma StateWorkFits(c: Crypto, id: Identity, ch: Channel, r: Reservation, work: (OfficialState, RecoveryPackage),
                      n: u64)
    requires n == |ch.ledger| + 1 && n in ch.intents && HasTargets(r)
    requires r.targetStateSequence == Some(n) && r.entryIndex == Some(n - 1)
    requires work.0.checkpoint == ch.intents[n].checkpoint && VerifyOfficialState(c, id.terms, work.0).Pass?
    requires work.1 == RecoveryPackage(id.coin, id.puzzle, id.terms.fundingAmount, id.terms, work.0,
                                       Entries(ch.ledger) + [r.entry], Signatures(ch.ledger) + [r.signature])
    requires ValidPackage(c, work.1)
    ensures StateWork(c, id, ch.intents, r, work.0) && PackageWork(c, id, ch.ledger, r, work.0, work.1)
  {
    assert ch.ledger[..n - 1] == ch.ledger;
  }

  lemma CanonicalWorkFits(c: Crypto, key: SecretKey, db: Database, coin: Bytes32, nonce: Bytes32)
    requires Finalizable(c, key, db, coin, nonce) && IsSignedTarget(db[coin].reservations[nonce])
    ensures var ch, r := db[coin], db[coin].reservations[nonce];
            var work := WorkOf(c, key, coin, ch, r);
            && work.Some?
            && StateWork(c, IdentityOf(coin, ch.row), ch.intents, r, work.value.0)
            && PackageWork(c, IdentityOf(coin, ch.row), ch.ledger, r, work.value.0, work.value.1)
  {
    var ch, r, id := db[coin], db[coin].reservations[nonce], IdentityOf(coin, db[coin].row);
    PreparedWork(c, key, db, coin, nonce);
    ChannelParts(c, coin, ch);
    assert ReservationOk(c, id, ch.reservations[nonce], nonce, ch.intents, ch.ledger);
    StateWorkFits(c, id, ch, r, WorkOf(c, key, coin, ch, r).value, |ch.ledger| + 1);
  }

  lemma CanonicalFinalWork(c: Crypto, key: SecretKey, db: Database, coin: Bytes32, nonce: Bytes32)
    requires Finalizable(c, key, db, coin, nonce)
    requires ResultOk(c, IdentityOf(coin, db[coin].row), db[coin].reservations[nonce], nonce,
                      ResultOf(c, key, db[coin].row.terms, coin, nonce, db[coin].reservations[nonce]))
    ensures var ch, r := db[coin], db[coin].reservations[nonce];
            FinalWork(c, IdentityOf(coin, ch.row), ch, nonce, r, ResultOf(c, key, ch.row.terms, coin, nonce, r),
                      WorkOf(c, key, coin, ch, r))
  {
    if IsSignedTarget(db[coin].reservations[nonce]) {
      CanonicalWorkFits(c, key, db, coin, nonce);
    }
  }

  /** The database after the row is finalized. */
  function CompletedIn(c: Crypto, key: SecretKey, db: Database, coin: Bytes32, nonce: Bytes32): Database
    requires coin in db && nonce in db[coin].reservations
  {
    db[coin := Completed(c, key, coin, db[coin], nonce)]
  }

  lemma CommitCompletes(c: Crypto, key: SecretKey, db: Database, coin: Bytes32, nonce: Bytes32)
    requires Finalizable(c, key, db, coin, nonce)
    requires ResultOk(c, IdentityOf(coin, db[coin].row), db[coin].reservations[nonce], nonce,
                      ResultOf(c, key, db[coin].row.terms, coin, nonce, db[coin].reservations[nonce]))
    ensures var ch, r := db[coin], db[coin].reservations[nonce];
            && Commit(c, db, coin, nonce, ch.row.terms, r, ResultOf(c, key, ch.row.terms, coin, nonce, r),
                      WorkOf(c, key, coin, ch, r))
               == Success(Some(CompletedIn(c, key, db, coin, nonce)))
            && ChannelOk(c, coin, Completed(c, key, coin, ch, nonce))
  {
    var ch, r := db[coin], db[coin].reservations[nonce];
    CanonicalFinalWork(c, key, db, coin, nonce);
    ChannelLoadsIff(c, db, coin);
    CommitIs(c, db, coin, nonce, r, ResultOf(c, key, ch.row.terms, coin, nonce, r), WorkOf(c, key, coin, ch, r));
  }

  // ---------------------------------------------------------------- the whole finalization, stopped anywhere

  /** A step that writes nothing and hands over to the next. */
  ghost predicate Quiet(advance: (Database, Task) -> Step, db: Database, task: Task, next: Task) {
    !task.Done? && advance(db, task).db == db && advance(db, task).task == next
  }

  /** A row of quiet steps leads to its last task, and nothing is written on the way. */
  lemma {:induction false} StepsThrough(advance: (Database, Task) -> Step, db: Database, tasks: seq<Task>, n: nat)
    requires tasks != [] && (forall i :: 0 <= i < |tasks| - 1 ==> Quiet(advance, db, tasks[i], tasks[i + 1]))
    ensures n < |tasks| ==> Steps(advance, db, tasks[0], n).db == db
    ensures n >= |tasks| ==>
              var end := Steps(advance, db, tasks[|tasks| - 1], n - (|tasks| - 1));
              Steps(advance, db, tasks[0], n).db == end.db && Steps(advance, db, tasks[0], n).task == end.task
    decreases |tasks|
  {
    if |tasks| > 1 && n > 0 {
      assert Quiet(advance, db, tasks[0], tasks[1]);
      var others := tasks[1..];
      forall i | 0 <= i < |others| - 1 ensures Quiet(advance, db, others[i], others[i + 1]) {
        assert Quiet(advance, db, tasks[i + 1], tasks[i + 1 + 1]);
      }
      StepsThrough(advance, db, others, n - 1);
    }
  }

  /** A last step. */
  lemma StepsEnd(advance: (Database, Task) -> Step, db: Database, task: Task, n: nat)
    requires !task.Done? && advance(db, task).task.Done?
    ensures n > 0 ==> Steps(advance, db, task, n).db == advance(db, task).db
    ensures n > 0 ==> Steps(advance, db, task, n).task == advance(db, task).task
  {
  }

  /** The tasks a finalization goes through up to its commit. */
  function FinalTasks(job: Job, row: ChannelRow, r: Reservation, signed: SignedReservationResult,
                      work: Option<(OfficialState, RecoveryPackage)>): (tasks: seq<Task>)
    ensures |tasks| >= 3 && tasks[|tasks| - 1] == ToCommit(job, row, r, signed, work)
  {
    [ToFindChannel(job), ToSignResult(job, row)] +
    (if work.Some? then [ToSignState(job, row, r, signed), ToPackage(job, row, r, signed, work.value.0)] else []) +
    [ToCommit(job, row, r, signed, work)]
  }

  lemma FindIsQuiet(c: Crypto, db: Database, job: Job)
    requires Finalizable(c, job.key, db, job.coin, job.nonce)
    ensures Quiet(Advancing(c), db, ToFindChannel(job), ToSignResult(job, db[job.coin].row))
  {
    ChannelIsFound(c, db, job);
  }

  lemma WorkIffAccepted(c: Crypto, key: SecretKey, db: Database, coin: Bytes32, nonce: Bytes32)
    requires Finalizable(c, key, db, coin, nonce)
    ensures WorkOf(c, key, coin, db[coin], db[coin].reservations[nonce]).Some? <==>
              IsSignedTarget(db[coin].reservations[nonce])
  {
    if IsSignedTarget(db[coin].reservations[nonce]) {
      PreparedWork(c, key, db, coin, nonce);
    }
  }

  lemma SigningIsQuiet(c: Crypto, db: Database, job: Job, row: ChannelRow, r: Reservation,
                       signed: SignedReservationResult, work: Option<(OfficialState, RecoveryPackage)>)
    requires Finalizable(c, job.key, db, job.coin, job.nonce) && row == db[job.coin].row
    requires r == db[job.coin].reservations[job.nonce]
             && signed == ResultOf(c, job.key, row.terms, job.coin, job.nonce, r)
    requires work.Some? <==> IsSignedTarget(r)
    ensures Quiet(Advancing(c), db, ToSignResult(job, row),
                  if work.Some? then ToSignState(job, row, r, signed) else ToCommit(job, row, r, signed, work))
    ensures ResultOk(c, IdentityOf(job.coin, row), r, job.nonce, signed)
  {
    ResultIsSigned(c, db, job);
  }

  /** What packaging and signing need of a prepared acceptance. */
  ghost predicate WorkReady(c: Crypto, key: SecretKey, db: Database, coin: Bytes32, row: ChannelRow, r: Reservation,
                            work: (OfficialState, RecoveryPackage))
  {
    && coin in db && r.targetStateSequence.Some?
    && LoadIntentCheckpoint(db, coin, r.targetStateSequence.value) == Success(work.0.checkpoint)
    && ValidateCheckpoint(c, row.terms, work.0.checkpoint).Pass?
    && work.0 == StateOf(c, key, row.terms, work.0.checkpoint)
    && VerifyOfficialState(c, row.terms, work.0).Pass?
    && LoadLedger(c, db, coin) == Success(db[coin].ledger)
    && work.1 == BuildPackage(row, coin, work.0, Entries(db[coin].ledger) + [r.entry],
                              Signatures(db[coin].ledger) + [r.signature])
    && ValidatePackage(c, work.1).Pass?
  }

  lemma PreparedWorkReady(c: Crypto, key: SecretKey, db: Database, coin: Bytes32, nonce: Bytes32)
    requires Finalizable(c, key, db, coin, nonce) && IsSignedTarget(db[coin].reservations[nonce])
    ensures var work := WorkOf(c, key, coin, db[coin], db[coin].reservations[nonce]);
            work.Some? && WorkReady(c, key, db, coin, db[coin].row, db[coin].reservations[nonce], work.value)
  {
    PreparedWork(c, key, db, coin, nonce);
    LedgerLoads(c, db, coin);
  }

  lemma StateIsQuiet(c: Crypto, db: Database, job: Job, row: ChannelRow, r: Reservation,
                     signed: SignedReservationResult, work: (OfficialState, RecoveryPackage))
    requires WorkReady(c, job.key, db, job.coin, row, r, work)
    ensures Quiet(Advancing(c), db, ToSignState(job, row, r, signed), ToPackage(job, row, r, signed, work.0))
  {
    StateSigningExactly(c, db, job, row, r, signed, work.0.checkpoint);
  }

  lemma PackagingIsQuiet(c: Crypto, db: Database, job: Job, row: ChannelRow, r: Reservation,
                         signed: SignedReservationResult, work: (OfficialState, RecoveryPackage))
    requires WorkReady(c, job.key, db, job.coin, row, r, work)
    ensures Quiet(Advancing(c), db, ToPackage(job, row, r, signed, work.0), ToCommit(job, row, r, signed, Some(work)))
  {
    PackagingExactly(c, db, job, row, r, signed, work.0, work.1);
  }

  lemma TasksFollow(advance: (Database, Task) -> Step, db: Database, job: Job, row: ChannelRow, r: Reservation,
                    signed: SignedReservationResult, work: Option<(OfficialState, RecoveryPackage)>)
    requires Quiet(advance, db, ToFindChannel(job), ToSignResult(job, row))
    requires Quiet(advance, db, ToSignResult(job, row),
                   if work.Some? then ToSignState(job, row, r, signed) else ToCommit(job, row, r, signed, work))
    requires work.Some? ==>
               && Quiet(advance, db, ToSignState(job, row, r, signed), ToPackage(job, row, r, signed, work.value.0))
               && Quiet(advance, db, ToPackage(job, row, r, signed, work.value.0), ToCommit(job, row, r, signed, work))
    ensures var tasks := FinalTasks(job, row, r, signed, work);
            forall i :: 0 <= i < |tasks| - 1 ==> Quiet(advance, db, tasks[i], tasks[i + 1])
  {
  }

  lemma FinalTasksQuiet(c: Crypto, db: Database, job: Job, row: ChannelRow, r: Reservation,
                        signed: SignedReservationResult, work: Option<(OfficialState, RecoveryPackage)>)
    requires Finalizable(c, job.key, db, job.coin, job.nonce) && row == db[job.coin].row
    requires r == db[job.coin].reservations[job.nonce]
             && signed == ResultOf(c, job.key, row.terms, job.coin, job.nonce, r)
    requires work == WorkOf(c, job.key, job.coin, db[job.coin], r)
    ensures var tasks := FinalTasks(job, row, r, signed, work);
            forall i :: 0 <= i < |tasks| - 1 ==> Quiet(Advancing(c), db, tasks[i], tasks[i + 1])
    ensures ResultOk(c, IdentityOf(job.coin, row), r, job.nonce, signed)
  {
    FindIsQuiet(c, db, job);
    WorkIffAccepted(c, job.key, db, job.coin, job.nonce);
    SigningIsQuiet(c, db, job, row, r, signed, work);
    if work.Some? {
      PreparedWorkReady(c, job.key, db, job.coin, job.nonce);
      StateIsQuiet(c, db, job, row, r, signed, work.value);
      PackagingIsQuiet(c, db, job, row, r, signed, work.value);
    }
    TasksFollow(Advancing(c), db, job, row, r, signed, work);
  }

  /** A finalization stopped after `n` steps, or by the injected failure, has written nothing or everything. */
  ghost predicate AllOrNothing(c: Crypto, job: Job, before: Database, end: Step) {
    || end.db == before
    || (&& job.coin in before && job.nonce in before[job.coin].reservations
        && end.db == CompletedIn(c, job.key, before, job.coin, job.nonce))
  }

  lemma CommitAdvances(c: Crypto, db: Database, job: Job, row: ChannelRow, r: Reservation,
                       signed: SignedReservationResult, work: Option<(OfficialState, RecoveryPackage)>, after: Database)
    requires Commit(c, db, job.coin, job.nonce, row.terms, r, signed, work) == Success(Some(after))
    ensures Advancing(c)(db, ToCommit(job, row, r, signed, work)) ==
            if job.point.AfterStateSignature? then Stop(db, [], job.coin, job.nonce, InjectedFailure(job.point))
            else Step(after, [], Done(job.coin, job.nonce,
                   Success(ReservationOutcome(signed, if work.Some? then Some(work.value.1) else None))))
  {
    CommittingExactly(c, db, job, row, r, signed, work, after);
  }

  lemma CommitStep(c: Crypto, db: Database, job: Job, row: ChannelRow, r: Reservation, signed: SignedReservationResult,
                   work: Option<(OfficialState, RecoveryPackage)>)
    requires Finalizable(c, job.key, db, job.coin, job.nonce) && row == db[job.coin].row
    requires r == db[job.coin].reservations[job.nonce]
             && signed == ResultOf(c, job.key, row.terms, job.coin, job.nonce, r)
    requires work == WorkOf(c, job.key, job.coin, db[job.coin], r)
    requires ResultOk(c, IdentityOf(job.coin, row), r, job.nonce, signed)
    ensures Advancing(c)(db, ToCommit(job, row, r, signed, work)) ==
            if job.point.AfterStateSignature? then Stop(db, [], job.coin, job.nonce, InjectedFailure(job.point))
            else Step(CompletedIn(c, job.key, db, job.coin, job.nonce), [],
                      Done(job.coin, job.nonce, Success(OutcomeFor(c, job.key, job.coin, db[job.coin], job.nonce))))
  {
    CommitCompletes(c, job.key, db, job.coin, job.nonce);
    CommitAdvances(c, db, job, row, r, signed, work, CompletedIn(c, job.key, db, job.coin, job.nonce));
  }

  /** Finalizing a row that can be finalized: uninterrupted it writes the completed channel and returns the outcome
      fixed at preparation; stopped anywhere it has written nothing, or all of that. */
  lemma FinalizationIsAtomic(c: Crypto, db: Database, job: Job, n: nat)
    requires Finalizable(c, job.key, db, job.coin, job.nonce)
    ensures AllOrNothing(c, job, db, Steps(Advancing(c), db, ToFindChannel(job), n))
    ensures n >= 5 && !job.point.AfterStateSignature? ==>
              var end := Steps(Advancing(c), db, ToFindChannel(job), n);
              && end.db == CompletedIn(c, job.key, db, job.coin, job.nonce)
              && end.task == Done(job.coin, job.nonce,
                                  Success(OutcomeFor(c, job.key, job.coin, db[job.coin], job.nonce)))
  {
    var ch, r := db[job.coin], db[job.coin].reservations[job.nonce];
    var signed, work := ResultOf(c, job.key, ch.row.terms, job.coin, job.nonce, r), WorkOf(c, job.key, job.coin, ch, r);
    var tasks := FinalTasks(job, ch.row, r, signed, work);
    FinalTasksQuiet(c, db, job, ch.row, r, signed, work);
    StepsThrough(Advancing(c), db, tasks, n);
    CommitStep(c, db, job, ch.row, r, signed, work);
    if n >= |tasks| {
      StepsEnd(Advancing(c), db, tasks[|tasks| - 1], n - (|tasks| - 1));
    }
  }
}
