/** Recovering every prepared row: when it succeeds, that its order does not matter, and that a crash at any point,
    once recovered, leaves exactly the rows an uninterrupted call leaves. */
module HubClosure {
  import opened ByteStrings
  import opened Protocol
  import opened Types
  import opened HubRecords
  import opened HubGate
  import opened HubSteps
  import opened HubInvariant
  import opened HubSafety
  import opened HubReads
  import opened HubProgress
  import opened HubCommit
  import opened HubMachine
  import opened HubRuns
  import opened HubRecovery

  // ---------------------------------------------------------------- when a finalization fails

  lemma FindFails(c: Crypto, db: Database, job: Job, n: nat)
    requires job.coin in db && ChannelOk(c, job.coin, db[job.coin]) && n >= 1
    requires !HeightsBind(db[job.coin].row) || c.publicKey(job.key) != db[job.coin].row.terms.hubStatePublicKeyA
    ensures var end := Steps(Advancing(c), db, ToFindChannel(job), n);
            end.db == db && end.task.Done? && end.task.result.Failure?
  {
    ChannelLoadsIff(c, db, job.coin);
    StepsEnd(Advancing(c), db, ToFindChannel(job), n);
  }

  lemma StuckStops(c: Crypto, db: Database, job: Job)
    requires job.coin in db && ChannelOk(c, job.coin, db[job.coin]) && Open(db[job.coin], job.nonce)
    requires Stuck(db[job.coin].reservations[job.nonce])
    ensures AdvanceSignResult(c, db, job, db[job.coin].row)
            == Stop(db, [], job.coin, job.nonce, Corrupt("reservation state binding"))
  {
    FindsReservation(c, db, job.coin, job.nonce);
  }

  lemma ChannelFound(c: Crypto, db: Database, job: Job)
    requires job.coin in db && ChannelOk(c, job.coin, db[job.coin])
    requires HeightsBind(db[job.coin].row) && c.publicKey(job.key) == db[job.coin].row.terms.hubStatePublicKeyA
    ensures Quiet(Advancing(c), db, ToFindChannel(job), ToSignResult(job, db[job.coin].row))
  {
    ChannelLoadsIff(c, db, job.coin);
  }

  /** A rejection for want of room can never be finalized: every attempt reports corruption and changes nothing. */
  lemma StuckFails(c: Crypto, db: Database, job: Job, n: nat)
    requires job.coin in db && ChannelOk(c, job.coin, db[job.coin]) && Open(db[job.coin], job.nonce)
    requires HeightsBind(db[job.coin].row) && c.publicKey(job.key) == db[job.coin].row.terms.hubStatePublicKeyA
    requires Stuck(db[job.coin].reservations[job.nonce]) && n >= 2
    ensures var end := Steps(Advancing(c), db, ToFindChannel(job), n);
            end.db == db && end.task == Done(job.coin, job.nonce, Failure(Corrupt("reservation state binding")))
  {
    var tasks := [ToFindChannel(job), ToSignResult(job, db[job.coin].row)];
    ChannelFound(c, db, job);
    StuckStops(c, db, job);
    StepsThrough(Advancing(c), db, tasks, n);
    StepsEnd(Advancing(c), db, tasks[1], n - 1);
  }

  /** Finalizing a prepared row succeeds exactly when its channel loads, the key is the channel's, and the row is not a
      rejection for want of room. */
  lemma FinalizationSucceedsIff(c: Crypto, db: Database, coin: Bytes32, nonce: Bytes32, key: SecretKey)
    requires coin in db && ChannelOk(c, coin, db[coin]) && Open(db[coin], nonce) && SignsCorrectly(c)
    ensures var end := Finish(c, db, ToFindChannel(Job(coin, nonce, key, NoFailure)));
            && end.task.Done?
            && (end.task.result.Success? <==> Finalizable(c, key, db, coin, nonce))
            && (end.task.result.Success? ==>
                  && end.db == CompletedIn(c, key, db, coin, nonce)
                  && end.task.result.value == OutcomeFor(c, key, coin, db[coin], nonce))
            && (end.task.result.Failure? ==> end.db == db)
  {
    var job := Job(coin, nonce, key, NoFailure);
    if Finalizable(c, key, db, coin, nonce) {
      FinalizationIsAtomic(c, db, job, 9);
    } else if Stuck(db[coin].reservations[nonce]) && HeightsBind(db[coin].row)
              && c.publicKey(key) == db[coin].row.terms.hubStatePublicKeyA {
      StuckFails(c, db, job, 9);
    } else {
      FindFails(c, db, job, 9);
    }
  }

  // ---------------------------------------------------------------- the closure of a channel

  function ClosedRow(c: Crypto, key: SecretKey, terms: ChannelTerms, coin: Bytes32, nonce: Bytes32, r: Reservation)
    : Reservation
  {
    if r.stage.Prepared? && !Stuck(r)
    then r.(stage := Stage.Signed, signedResult := Some(ResultOf(c, key, terms, coin, nonce, r)))
    else r
  }

  function ClosedRows(c: Crypto, key: SecretKey, terms: ChannelTerms, coin: Bytes32, rows: map<Bytes32, Reservation>)
    : map<Bytes32, Reservation>
  {
    map m | m in rows :: ClosedRow(c, key, terms, coin, m, rows[m])
  }

  /** The nonce of the prepared intent, if there is one. */
  function PendingNonce(ch: Channel): Option<Bytes32> {
    var n := |ch.ledger| + 1;
    if n <= 64 && n as u64 in ch.intents && ch.intents[n].reservationNonce in ch.reservations
    then Some(ch.intents[n].reservationNonce) else None
  }

  /** The channel with every row that can be finalized finalized, in one go. */
  function Closed(c: Crypto, key: SecretKey, coin: Bytes32, ch: Channel): Channel {
    var pending := PendingNonce(ch);
    var appended := if pending.Some? then Completed(c, key, coin, ch, pending.value) else ch;
    appended.(reservations := ClosedRows(c, key, ch.row.terms, coin, ch.reservations))
  }

  /** Every open row is finalized or stuck. */
  predicate Settled(ch: Channel) {
    forall m :: m in ch.reservations ==> ch.reservations[m].stage.Signed? || Stuck(ch.reservations[m])
  }

  lemma PendingIsOpen(c: Crypto, coin: Bytes32, ch: Channel)
    requires ChannelOk(c, coin, ch) && PendingNonce(ch).Some?
    ensures var m := PendingNonce(ch).value;
            && Open(ch, m) && IsSignedTarget(ch.reservations[m]) && !Stuck(ch.reservations[m])
            && ch.reservations[m].targetStateSequence == Some(|ch.ledger| + 1)
  {
    var n: u64, id := |ch.ledger| + 1, IdentityOf(coin, ch.row);
    ChannelParts(c, coin, ch);
    assert IntentOk(c, id, ch.intents, ch.states, ch.ledger, ch.reservations, n);
    assert ReservationOk(c, id, ch.reservations[ch.intents[n].reservationNonce], ch.intents[n].reservationNonce,
                         ch.intents, ch.ledger);
  }

  /** With nothing left to finalize the closure is the channel itself. */
  lemma SettledIsClosed(c: Crypto, key: SecretKey, coin: Bytes32, ch: Channel)
    requires ChannelOk(c, coin, ch) && Settled(ch)
    ensures Closed(c, key, coin, ch) == ch
  {
    if PendingNonce(ch).Some? {
      PendingIsOpen(c, coin, ch);
    }
    assert ClosedRows(c, key, ch.row.terms, coin, ch.reservations) == ch.reservations;
  }

  // ---------------------------------------------------------------- finalizing a row does not change the closure

  lemma ClosedRowsAbsorb(c: Crypto, key: SecretKey, terms: ChannelTerms, coin: Bytes32, rows: map<Bytes32, Reservation>,
                         nonce: Bytes32)
    requires nonce in rows
    ensures ClosedRows(c, key, terms, coin, rows[nonce := ClosedRow(c, key, terms, coin, nonce, rows[nonce])])
            == ClosedRows(c, key, terms, coin, rows)
  {
  }

  lemma CompletedRows(c: Crypto, key: SecretKey, coin: Bytes32, ch: Channel, nonce: Bytes32)
    requires Open(ch, nonce) && !Stuck(ch.reservations[nonce])
    ensures Completed(c, key, coin, ch, nonce).reservations ==
            ch.reservations[nonce := ClosedRow(c, key, ch.row.terms, coin, nonce, ch.reservations[nonce])]
    ensures Completed(c, key, coin, ch, nonce).row.terms == ch.row.terms
  {
  }

  lemma IntentsEnd(c: Crypto, id: Identity, intents: map<u64, Intent>, states: map<u64, StateRow>,
                   ledger: seq<LedgerRow>, reservations: map<Bytes32, Reservation>, k: u64)
    requires IntentsOk(c, id, intents, states, ledger, reservations)
    ensures k in intents ==> k <= |ledger| + 1
  {
    if k in intents {
      assert IntentOk(c, id, intents, states, ledger, reservations, k);
    }
  }

  lemma NothingPendsAfterCommit(ch: Channel, nonce: Bytes32, r: Reservation, n: u64, s: StateRow,
                                signed: SignedReservationResult)
    requires n == |ch.ledger| + 1 <= 64 && n in ch.intents && (n + 1) as u64 !in ch.intents
    ensures PendingNonce(Committed(ch, nonce, r, n, ch.intents[n], s, signed)).None?
  {
  }

  lemma AcceptedIsPending(c: Crypto, coin: Bytes32, ch: Channel, nonce: Bytes32)
    requires ChannelOk(c, coin, ch) && Open(ch, nonce) && IsSignedTarget(ch.reservations[nonce])
    ensures PendingNonce(ch) == Some(nonce)
    ensures |ch.ledger| < 64 && (|ch.ledger| + 1) as u64 in ch.intents
  {
    var id := IdentityOf(coin, ch.row);
    ChannelParts(c, coin, ch);
    assert ReservationOk(c, id, ch.reservations[nonce], nonce, ch.intents, ch.ledger);
    PreparedTargetsHead(c, id, ch, nonce, ch.reservations[nonce]);
  }

  lemma PendingIsAbsorbed(c: Crypto, key: SecretKey, coin: Bytes32, ch: Channel, nonce: Bytes32)
    requires Open(ch, nonce) && !Stuck(ch.reservations[nonce]) && PendingNonce(ch) == Some(nonce)
    requires PendingNonce(Completed(c, key, coin, ch, nonce)).None?
    ensures Closed(c, key, coin, Completed(c, key, coin, ch, nonce)) == Closed(c, key, coin, ch)
  {
    CompletedRows(c, key, coin, ch, nonce);
    ClosedRowsAbsorb(c, key, ch.row.terms, coin, ch.reservations, nonce);
  }

  lemma AcceptanceKeepsClosure(c: Crypto, key: SecretKey, db: Database, coin: Bytes32, nonce: Bytes32)
    requires Finalizable(c, key, db, coin, nonce) && IsSignedTarget(db[coin].reservations[nonce])
    ensures Closed(c, key, coin, Completed(c, key, coin, db[coin], nonce)) == Closed(c, key, coin, db[coin])
  {
    var ch, r, id := db[coin], db[coin].reservations[nonce], IdentityOf(coin, db[coin].row);
    PreparedWorkReady(c, key, db, coin, nonce);
    AcceptedIsPending(c, coin, ch, nonce);
    ChannelParts(c, coin, ch);
    var n: u64 := |ch.ledger| + 1;
    IntentsEnd(c, id, ch.intents, ch.states, ch.ledger, ch.reservations, n + 1);
    NothingPendsAfterCommit(ch, nonce, r, n,
                            NewStateRow(r, ch.intents[n].checkpointHash, WorkOf(c, key, coin, ch, r).value),
                            ResultOf(c, key, ch.row.terms, coin, nonce, r));
    PendingIsAbsorbed(c, key, coin, ch, nonce);
  }

  /** Completing one rejection leaves any other completion to come as it was. */
  lemma CompletionsCommute(c: Crypto, key: SecretKey, coin: Bytes32, ch: Channel, nonce: Bytes32, other: Bytes32,
                           rows: map<Bytes32, Reservation>)
    requires nonce in ch.reservations && other in ch.reservations && other != nonce
             && !IsSignedTarget(ch.reservations[nonce])
    ensures Completed(c, key, coin, Completed(c, key, coin, ch, nonce), other).(reservations := rows)
            == Completed(c, key, coin, ch, other).(reservations := rows)
  {
  }

  lemma RejectionIsMarked(c: Crypto, key: SecretKey, coin: Bytes32, ch: Channel, nonce: Bytes32)
    requires nonce in ch.reservations && !IsSignedTarget(ch.reservations[nonce])
    ensures Completed(c, key, coin, ch, nonce) ==
            MarkSigned(ch, nonce, ch.reservations[nonce],
                       ResultOf(c, key, ch.row.terms, coin, nonce, ch.reservations[nonce]))
    ensures PendingNonce(Completed(c, key, coin, ch, nonce)) == PendingNonce(ch)
  {
  }

  lemma RejectionKeepsClosure(c: Crypto, key: SecretKey, coin: Bytes32, ch: Channel, nonce: Bytes32)
    requires Open(ch, nonce) && !IsSignedTarget(ch.reservations[nonce]) && !Stuck(ch.reservations[nonce])
    requires PendingNonce(ch) != Some(nonce)
    ensures Closed(c, key, coin, Completed(c, key, coin, ch, nonce)) == Closed(c, key, coin, ch)
  {
    CompletedRows(c, key, coin, ch, nonce);
    ClosedRowsAbsorb(c, key, ch.row.terms, coin, ch.reservations, nonce);
    RejectionIsMarked(c, key, coin, ch, nonce);
    if PendingNonce(ch).Some? {
      CompletionsCommute(c, key, coin, ch, nonce, PendingNonce(ch).value,
                         ClosedRows(c, key, ch.row.terms, coin, ch.reservations));
    }
  }

  /** Finalizing any row leaves the closure as it was: what will be stored was fixed at preparation. */
  lemma CompletionKeepsClosure(c: Crypto, key: SecretKey, db: Database, coin: Bytes32, nonce: Bytes32)
    requires Finalizable(c, key, db, coin, nonce)
    ensures Closed(c, key, coin, Completed(c, key, coin, db[coin], nonce)) == Closed(c, key, coin, db[coin])
  {
    if IsSignedTarget(db[coin].reservations[nonce]) {
      AcceptanceKeepsClosure(c, key, db, coin, nonce);
    } else {
      if PendingNonce(db[coin]).Some? {
        PendingIsOpen(c, coin, db[coin]);
      }
      RejectionKeepsClosure(c, key, coin, db[coin], nonce);
    }
  }

  // ---------------------------------------------------------------- recovering a whole database

  type PendingRow = (Bytes32, Bytes32)

  datatype Recovery = Recovery(db: Database, outcomes: Result<seq<ReservationOutcome>, HubError>)

  /** One finalization, as recovery calls it. */
  function Finalizing(c: Crypto, key: SecretKey): (Database, PendingRow) -> Step {
    (db, row: PendingRow) => Finish(c, db, ToFindChannel(Job(row.0, row.1, key, NoFailure)))
  }

  /** A loop over the rows that stops at the first failure. */
  function FinalizeEach(finalize: (Database, PendingRow) -> Step, db: Database, pending: seq<PendingRow>): Recovery
    decreases |pending|
  {
    if pending == [] then Recovery(db, Success([]))
    else
      var end := finalize(db, pending[0]);
      if !end.task.Done? then Recovery(end.db, Failure(StateConflict))
      else if end.task.result.Failure? then Recovery(end.db, Failure(end.task.result.error))
      else
        var others := FinalizeEach(finalize, end.db, pending[1..]);
        Recovery(others.db, if others.outcomes.Failure? then others.outcomes
                            else Success([end.task.result.value] + others.outcomes.value))
  }

  /** `recover_pending` over the rows it found prepared. */
  function RecoverAll(c: Crypto, db: Database, pending: seq<PendingRow>, key: SecretKey): Recovery {
    FinalizeEach(Finalizing(c, key), db, pending)
  }

  function ClosedDatabase(c: Crypto, key: SecretKey, db: Database): Database {
    map coin | coin in db :: Closed(c, key, coin, db[coin])
  }

  predicate IsOpen(db: Database, row: PendingRow) {
    row.0 in db && Open(db[row.0], row.1)
  }

  /** The rows found prepared, in any order, each once. */
  ghost predicate Lists(db: Database, pending: seq<PendingRow>) {
    && (forall i, j :: 0 <= i < j < |pending| ==> pending[i] != pending[j])
    && (forall row :: row in pending <==> IsOpen(db, row))
  }

  /** Every prepared row can be finalized: its channel loads and is the HUB's own, and the row is not stuck. */
  ghost predicate Recoverable(c: Crypto, db: Database, key: SecretKey) {
    && DatabaseOk(c, db) && SignsCorrectly(c)
    && (forall row: PendingRow :: IsOpen(db, row) ==> Finalizable(c, key, db, row.0, row.1))
  }

  /** A prepared row no recovery can finish. */
  predicate IsStuck(db: Database, row: PendingRow) {
    IsOpen(db, row) && Stuck(db[row.0].reservations[row.1])
  }

  lemma OpenIsFinalizable(c: Crypto, db: Database, key: SecretKey, row: PendingRow)
    requires DatabaseOk(c, db) && SignsCorrectly(c) && IsOpen(db, row)
    ensures Finalizable(c, key, db, row.0, row.1) <==>
            && HeightsBind(db[row.0].row)
            && c.publicKey(key) == db[row.0].row.terms.hubStatePublicKeyA
            && !IsStuck(db, row)
  {
    assert ChannelOk(c, row.0, db[row.0]);
  }

  /** What finalizing one row does to the others: nothing. */
  ghost predicate OthersUntouched(before: Database, after: Database, row: PendingRow) {
    forall other: PendingRow :: IsOpen(after, other) <==> IsOpen(before, other) && other != row
  }

  lemma CompletedChannel(c: Crypto, key: SecretKey, coin: Bytes32, ch: Channel, nonce: Bytes32)
    requires Open(ch, nonce) && !Stuck(ch.reservations[nonce])
    ensures var after := Completed(c, key, coin, ch, nonce);
            && after.row.terms == ch.row.terms && SameHeights(after.row, ch.row)
            && (forall m :: Open(after, m) <==> Open(ch, m) && m != nonce)
            && (forall m :: m in ch.reservations && m != nonce ==> after.reservations[m] == ch.reservations[m])
  {
  }

  lemma RowsUntouched(c: Crypto, db: Database, key: SecretKey, row: PendingRow)
    requires IsOpen(db, row) && !IsStuck(db, row)
    ensures OthersUntouched(db, CompletedIn(c, key, db, row.0, row.1), row)
    ensures forall other: PendingRow :: IsOpen(db, other) && other != row ==>
              (IsStuck(CompletedIn(c, key, db, row.0, row.1), other) <==> IsStuck(db, other))
  {
    CompletedChannel(c, key, row.0, db[row.0], row.1);
  }

  /** The channels of two databases agree on what decides whether a row can be finalized. */
  predicate SameChances(before: ChannelRow, after: ChannelRow) {
    after.terms == before.terms && SameHeights(after, before)
  }

  lemma OtherStaysFinalizable(c: Crypto, db: Database, after: Database, key: SecretKey, other: PendingRow)
    requires DatabaseOk(c, db) && DatabaseOk(c, after) && SignsCorrectly(c)
    requires IsOpen(db, other) && IsOpen(after, other) && (IsStuck(after, other) <==> IsStuck(db, other))
    requires SameChances(db[other.0].row, after[other.0].row)
    ensures Finalizable(c, key, after, other.0, other.1) <==> Finalizable(c, key, db, other.0, other.1)
  {
    OpenIsFinalizable(c, db, key, other);
    OpenIsFinalizable(c, after, key, other);
  }

  lemma CompletionKeepsChances(c: Crypto, db: Database, key: SecretKey, row: PendingRow)
    requires IsOpen(db, row) && !IsStuck(db, row)
    ensures forall coin {:trigger db[coin]} :: coin in db ==>
              coin in CompletedIn(c, key, db, row.0, row.1)
              && SameChances(db[coin].row, CompletedIn(c, key, db, row.0, row.1)[coin].row)
  {
    CompletedChannel(c, key, row.0, db[row.0], row.1);
  }

  lemma CompletionKeepsRecoverable(c: Crypto, db: Database, key: SecretKey, row: PendingRow)
    requires DatabaseOk(c, db) && IsOpen(db, row) && Finalizable(c, key, db, row.0, row.1)
    ensures DatabaseOk(c, CompletedIn(c, key, db, row.0, row.1))
    ensures Recoverable(c, CompletedIn(c, key, db, row.0, row.1), key) <==> Recoverable(c, db, key)
  {
    var after := CompletedIn(c, key, db, row.0, row.1);
    CompletedOk(c, db, key, row.0, row.1);
    OneChannelOk(c, db, row.0, Completed(c, key, row.0, db[row.0], row.1));
    RowsUntouched(c, db, key, row);
    CompletionKeepsChances(c, db, key, row);
    RecoverableTogether(c, db, after, key, row);
  }

  lemma RecoverableTogether(c: Crypto, db: Database, after: Database, key: SecretKey, row: PendingRow)
    requires DatabaseOk(c, db) && DatabaseOk(c, after) && Finalizable(c, key, db, row.0, row.1)
    requires OthersUntouched(db, after, row)
    requires forall other: PendingRow :: IsOpen(db, other) && other != row ==>
               (IsStuck(after, other) <==> IsStuck(db, other))
    requires forall coin {:trigger db[coin]} :: coin in db ==>
               coin in after && SameChances(db[coin].row, after[coin].row)
    ensures Recoverable(c, after, key) <==> Recoverable(c, db, key)
  {
    forall other: PendingRow | IsOpen(after, other)
      ensures Finalizable(c, key, after, other.0, other.1) <==> Finalizable(c, key, db, other.0, other.1)
    {
      assert IsOpen(db, other) && other != row;
      OtherStaysFinalizable(c, db, after, key, other);
    }
    if Recoverable(c, after, key) {
      forall other: PendingRow | IsOpen(db, other) ensures Finalizable(c, key, db, other.0, other.1) {
        assert other != row ==> IsOpen(after, other);
      }
    }
  }

  lemma CompletedOk(c: Crypto, db: Database, key: SecretKey, coin: Bytes32, nonce: Bytes32)
    requires Finalizable(c, key, db, coin, nonce)
    ensures ChannelOk(c, coin, Completed(c, key, coin, db[coin], nonce))
  {
    ResultIsSigned(c, db, Job(coin, nonce, key, NoFailure));
    CommitCompletes(c, key, db, coin, nonce);
  }

  lemma CompletionKeepsDatabaseClosure(c: Crypto, db: Database, key: SecretKey, row: PendingRow)
    requires Finalizable(c, key, db, row.0, row.1)
    ensures ClosedDatabase(c, key, CompletedIn(c, key, db, row.0, row.1)) == ClosedDatabase(c, key, db)
  {
    var after := CompletedIn(c, key, db, row.0, row.1);
    CompletionKeepsClosure(c, key, db, row.0, row.1);
    SameClosures(c, key, db, after, row.0);
  }

  lemma SameClosures(c: Crypto, key: SecretKey, db: Database, after: Database, coin: Bytes32)
    requires coin in db && after.Keys == db.Keys && Closed(c, key, coin, after[coin]) == Closed(c, key, coin, db[coin])
    requires forall other :: other in db && other != coin ==> after[other] == db[other]
    ensures ClosedDatabase(c, key, after) == ClosedDatabase(c, key, db)
  {
  }

  lemma OneRecovery(c: Crypto, db: Database, key: SecretKey, row: PendingRow)
    requires DatabaseOk(c, db) && SignsCorrectly(c) && IsOpen(db, row)
    ensures var end := Finalizing(c, key)(db, row);
            && end.task.Done?
            && (end.task.result.Success? <==> Finalizable(c, key, db, row.0, row.1))
            && (end.task.result.Success? ==> end.db == CompletedIn(c, key, db, row.0, row.1))
  {
    assert ChannelOk(c, row.0, db[row.0]);
    FinalizationSucceedsIff(c, db, row.0, row.1, key);
  }

  lemma NothingOpenIsClosed(c: Crypto, db: Database, key: SecretKey)
    requires DatabaseOk(c, db) && (forall row: PendingRow :: !IsOpen(db, row))
    ensures ClosedDatabase(c, key, db) == db
  {
    forall coin | coin in db ensures Closed(c, key, coin, db[coin]) == db[coin] {
      assert ChannelOk(c, coin, db[coin]);
      forall m | m in db[coin].reservations ensures db[coin].reservations[m].stage.Signed? {
        assert !IsOpen(db, (coin, m));
      }
      SettledIsClosed(c, key, coin, db[coin]);
    }
  }

  lemma ListsTheRest(before: Database, after: Database, pending: seq<PendingRow>)
    requires pending != [] && Lists(before, pending) && OthersUntouched(before, after, pending[0])
    ensures Lists(after, pending[1..])
  {
    var others := pending[1..];
    assert pending == [pending[0]] + others;
    forall i, j | 0 <= i < j < |others| ensures others[i] != others[j] {
      assert pending[i + 1] != pending[j + 1];
    }
    forall j | 0 <= j < |others| ensures others[j] != pending[0] {
      assert pending[0] != pending[j + 1];
    }
    forall row: PendingRow ensures row in others <==> IsOpen(after, row) {
      assert row in pending <==> IsOpen(before, row);
    }
  }

  /** What recovery comes to: everything, when it can all be finalized; a failure otherwise. */
  ghost predicate Recovers(c: Crypto, db: Database, key: SecretKey, end: Recovery) {
    && (end.outcomes.Success? <==> Recoverable(c, db, key))
    && (end.outcomes.Success? ==>
          && end.db == ClosedDatabase(c, key, db) && DatabaseOk(c, end.db)
          && (forall row: PendingRow :: !IsOpen(end.db, row)))
  }

  lemma EachStep(finalize: (Database, PendingRow) -> Step, db: Database, pending: seq<PendingRow>)
    requires pending != [] && finalize(db, pending[0]).task.Done?
    ensures var end, whole := finalize(db, pending[0]), FinalizeEach(finalize, db, pending);
            && (end.task.result.Failure? ==> whole.outcomes.Failure?)
            && (end.task.result.Success? ==>
                  var others := FinalizeEach(finalize, end.db, pending[1..]);
                  whole.db == others.db && (whole.outcomes.Success? <==> others.outcomes.Success?))
  {
  }

  /** Recovery succeeds exactly when every prepared row can be finalized, and then every row is as if each reservation
      had been finalized right after it was prepared, whatever the order of recovery. */
  lemma {:induction false} RecoveryRuns(c: Crypto, db: Database, pending: seq<PendingRow>, key: SecretKey)
    requires DatabaseOk(c, db) && SignsCorrectly(c) && Lists(db, pending)
    ensures Recovers(c, db, key, FinalizeEach(Finalizing(c, key), db, pending))
    decreases |pending|
  {
    if pending == [] {
      forall row: PendingRow ensures !IsOpen(db, row) {
        assert row !in pending;
      }
      NothingOpenIsClosed(c, db, key);
    } else {
      var row := pending[0];
      assert IsOpen(db, row);
      OneRecovery(c, db, key, row);
      EachStep(Finalizing(c, key), db, pending);
      if Finalizable(c, key, db, row.0, row.1) {
        AfterOne(c, db, key, pending);
        RecoveryRuns(c, CompletedIn(c, key, db, row.0, row.1), pending[1..], key);
      }
    }
  }

  lemma AfterOne(c: Crypto, db: Database, key: SecretKey, pending: seq<PendingRow>)
    requires DatabaseOk(c, db) && Lists(db, pending) && pending != []
    requires Finalizable(c, key, db, pending[0].0, pending[0].1)
    ensures var after := CompletedIn(c, key, db, pending[0].0, pending[0].1);
            && DatabaseOk(c, after) && Lists(after, pending[1..])
            && (Recoverable(c, after, key) <==> Recoverable(c, db, key))
            && ClosedDatabase(c, key, after) == ClosedDatabase(c, key, db)
  {
    RowsUntouched(c, db, key, pending[0]);
    CompletionKeepsRecoverable(c, db, key, pending[0]);
    ListsTheRest(db, CompletedIn(c, key, db, pending[0].0, pending[0].1), pending);
    CompletionKeepsDatabaseClosure(c, db, key, pending[0]);
  }

  // ---------------------------------------------------------------- a crash leaves no trace

  lemma CrashedIsRecoverable(c: Crypto, db: Database, key: SecretKey, row: PendingRow, crashed: Database)
    requires Recoverable(c, db, key) && IsOpen(db, row)
    requires crashed == db || crashed == CompletedIn(c, key, db, row.0, row.1)
    ensures Recoverable(c, crashed, key)
    ensures ClosedDatabase(c, key, crashed) == ClosedDatabase(c, key, db)
  {
    if crashed != db {
      CompletionKeepsRecoverable(c, db, key, row);
      CompletionKeepsDatabaseClosure(c, db, key, row);
    }
  }

  /** A finalization stopped anywhere, by a crash after any number of steps or by an injected failure, and then
      recovered, leaves exactly the rows that the uninterrupted finalization leaves once recovered. */
  lemma CrashIsTransparent(c: Crypto, db: Database, job: Job, n: nat, crashedRows: seq<PendingRow>,
                           finishedRows: seq<PendingRow>)
    requires Recoverable(c, db, job.key) && IsOpen(db, (job.coin, job.nonce))
    requires Lists(Steps(Advancing(c), db, ToFindChannel(job), n).db, crashedRows)
    requires Lists(CompletedIn(c, job.key, db, job.coin, job.nonce), finishedRows)
    ensures var crashed := RecoverAll(c, Steps(Advancing(c), db, ToFindChannel(job), n).db, crashedRows, job.key);
            var finished := RecoverAll(c, CompletedIn(c, job.key, db, job.coin, job.nonce), finishedRows, job.key);
            && crashed.outcomes.Success? && finished.outcomes.Success?
            && crashed.db == finished.db == ClosedDatabase(c, job.key, db)
  {
    var crashed, finished := Steps(Advancing(c), db, ToFindChannel(job), n).db,
        CompletedIn(c, job.key, db, job.coin, job.nonce);
    assert Finalizable(c, job.key, db, job.coin, job.nonce);
    FinalizationIsAtomic(c, db, job, n);
    RecoveredFrom(c, db, job.key, (job.coin, job.nonce), crashed, crashedRows);
    RecoveredFrom(c, db, job.key, (job.coin, job.nonce), finished, finishedRows);
  }

  lemma RecoveredFrom(c: Crypto, db: Database, key: SecretKey, row: PendingRow, crashed: Database,
                      rows: seq<PendingRow>)
    requires Recoverable(c, db, key) && IsOpen(db, row)
    requires crashed == db || crashed == CompletedIn(c, key, db, row.0, row.1)
    requires Lists(crashed, rows)
    ensures RecoverAll(c, crashed, rows, key).outcomes.Success?
    ensures RecoverAll(c, crashed, rows, key).db == ClosedDatabase(c, key, db)
  {
    CrashedIsRecoverable(c, db, key, row, crashed);
    RecoveryRuns(c, crashed, rows, key);
  }

  /** When no other row was prepared, recovery after the crash gives the uninterrupted call's database itself. */
  lemma RecoveryEqualsUninterrupted(c: Crypto, db: Database, job: Job, n: nat, rows: seq<PendingRow>)
    requires Recoverable(c, db, job.key) && IsOpen(db, (job.coin, job.nonce))
    requires forall other: PendingRow :: IsOpen(db, other) ==> other == (job.coin, job.nonce)
    requires Lists(Steps(Advancing(c), db, ToFindChannel(job), n).db, rows)
    ensures RecoverAll(c, Steps(Advancing(c), db, ToFindChannel(job), n).db, rows, job.key).db
            == Finish(c, db, ToFindChannel(job.(point := NoFailure))).db
  {
    var row, uninterrupted := (job.coin, job.nonce), job.(point := NoFailure);
    assert Finalizable(c, job.key, db, job.coin, job.nonce);
    RowsUntouched(c, db, job.key, row);
    var finished := CompletedIn(c, job.key, db, job.coin, job.nonce);
    CrashIsTransparent(c, db, job, n, rows, []);
    FinalizationIsAtomic(c, db, uninterrupted, 9);
  }
}
