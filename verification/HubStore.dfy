/** The HUB's store as the program has it: one object whose methods run the transactions, proved against the machine. */
module HubStore {
  import opened ByteStrings
  import opened Protocol
  import opened Types
  import opened Ledgers
  import opened HubRecords
  import opened HubGate
  import opened HubSteps
  import opened HubMachine
  import HubClosure

  // ---------------------------------------------------------------- methods against the machine

  /** A call started at `task` ends within `k` steps with this database, these signatures and this result. */
  ghost predicate Runs(advance: (Database, Task) -> Step, before: Database, task: Task, k: nat, after: Database,
                       signings: seq<Signing>, coin: Bytes32, nonce: Bytes32, r: Result<ReservationOutcome, HubError>)
  {
    Steps(advance, before, task, k) == Step(after, signings, Done(coin, nonce, r))
  }

  lemma RunsFirst(advance: (Database, Task) -> Step, before: Database, task: Task, step: Step, k: nat, after: Database,
                  signings: seq<Signing>, coin: Bytes32, nonce: Bytes32, r: Result<ReservationOutcome, HubError>)
    requires !task.Done? && advance(before, task) == step
             && Runs(advance, step.db, step.task, k, after, signings, coin, nonce, r)
    ensures Runs(advance, before, task, k + 1, after, step.signings + signings, coin, nonce, r)
  {
  }

  lemma RunsOnce(advance: (Database, Task) -> Step, before: Database, task: Task, k: nat, after: Database,
                 signings: seq<Signing>, coin: Bytes32, nonce: Bytes32, r: Result<ReservationOutcome, HubError>)
    requires !task.Done? && k > 0 && advance(before, task) == Step(after, signings, Done(coin, nonce, r))
    ensures Runs(advance, before, task, k, after, signings, coin, nonce, r)
  {
    assert signings + [] == signings;
  }

  /** More steps than it takes change nothing. */
  lemma {:induction false} RunsLonger(advance: (Database, Task) -> Step, before: Database, task: Task, k: nat, m: nat,
                                      after: Database, signings: seq<Signing>, coin: Bytes32, nonce: Bytes32,
                                      r: Result<ReservationOutcome, HubError>)
    requires k <= m && Runs(advance, before, task, k, after, signings, coin, nonce, r)
    ensures Runs(advance, before, task, m, after, signings, coin, nonce, r)
    decreases k
  {
    if k > 0 && !task.Done? {
      var step := advance(before, task);
      var rest := Steps(advance, step.db, step.task, k - 1);
      RunsLonger(advance, step.db, step.task, k - 1, m - 1, rest.db, rest.signings, coin, nonce, r);
    }
  }

  type Finalizer = (Database, HubClosure.PendingRow) -> Step

  /** What a call to finalize one row did. */
  ghost predicate RanRow(finalize: Finalizer, before: Database, row: HubClosure.PendingRow, after: Database,
                         outcome: Result<ReservationOutcome, HubError>)
  {
    finalize(before, row).db == after && finalize(before, row).task == Done(row.0, row.1, outcome)
  }

  lemma FinalizedRowRan(c: Crypto, key: SecretKey, before: Database, row: HubClosure.PendingRow, after: Database,
                        signings: seq<Signing>, outcome: Result<ReservationOutcome, HubError>)
    requires Runs(Advancing(c), before, ToFindChannel(Job(row.0, row.1, key, NoFailure)), 8, after, signings, row.0,
                  row.1, outcome)
    ensures RanRow(HubClosure.Finalizing(c, key), before, row, after, outcome)
  {
    var job := Job(row.0, row.1, key, NoFailure);
    RunsLonger(Advancing(c), before, ToFindChannel(job), 8, 9, after, signings, row.0, row.1, outcome);
  }

  /** The databases a recovery went through, one for each row it finalized. */
  ghost predicate Trail(finalize: Finalizer, pending: seq<HubClosure.PendingRow>, dbs: seq<Database>,
                        recovered: seq<ReservationOutcome>)
  {
    && |dbs| == |recovered| + 1 && |recovered| <= |pending|
    && forall i {:trigger dbs[i], recovered[i]} :: 0 <= i < |recovered| ==>
         RanRow(finalize, dbs[i], pending[i], dbs[i + 1], Success(recovered[i]))
  }

  /** The function that recovery is, read off its trail: the outcomes so far, then whatever the rest comes to. */
  lemma {:induction false} TrailIs(finalize: Finalizer, pending: seq<HubClosure.PendingRow>, dbs: seq<Database>,
                                   recovered: seq<ReservationOutcome>)
    requires Trail(finalize, pending, dbs, recovered)
    ensures var rest := HubClosure.FinalizeEach(finalize, dbs[|recovered|], pending[|recovered|..]);
            HubClosure.FinalizeEach(finalize, dbs[0], pending) ==
            HubClosure.Recovery(rest.db, if rest.outcomes.Failure? then rest.outcomes
                                else Success(recovered + rest.outcomes.value))
    decreases |recovered|
  {
    if recovered == [] {
      assert pending[0..] == pending;
      var rest := HubClosure.FinalizeEach(finalize, dbs[0], pending);
      assert rest.outcomes.Success? ==> recovered + rest.outcomes.value == rest.outcomes.value;
    } else {
      var last := |recovered| - 1;
      var earlier, front := dbs[..last + 1], recovered[..last];
      forall i {:trigger earlier[i], front[i]} | 0 <= i < last
        ensures RanRow(finalize, earlier[i], pending[i], earlier[i + 1], Success(front[i]))
      {
        assert earlier[i] == dbs[i] && front[i] == recovered[i] && earlier[i + 1] == dbs[i + 1];
      }
      TrailIs(finalize, pending, earlier, front);
      assert RanRow(finalize, dbs[last], pending[last], dbs[last + 1], Success(recovered[last]));
      assert pending[last..][1..] == pending[last + 1..];
      var rest := HubClosure.FinalizeEach(finalize, dbs[last + 1], pending[last + 1..]);
      if rest.outcomes.Success? {
        assert front + ([recovered[last]] + rest.outcomes.value) == recovered + rest.outcomes.value;
      }
    }
  }

  lemma TrailGrows(finalize: Finalizer, pending: seq<HubClosure.PendingRow>, dbs: seq<Database>,
                   recovered: seq<ReservationOutcome>, after: Database, outcome: ReservationOutcome)
    requires Trail(finalize, pending, dbs, recovered) && |recovered| < |pending|
    requires RanRow(finalize, dbs[|recovered|], pending[|recovered|], after, Success(outcome))
    ensures Trail(finalize, pending, dbs + [after], recovered + [outcome])
  {
    var longer, all := dbs + [after], recovered + [outcome];
    forall i {:trigger longer[i], all[i]} | 0 <= i < |all|
      ensures RanRow(finalize, longer[i], pending[i], longer[i + 1], Success(all[i]))
    {
      if i < |recovered| {
        assert dbs[i] == longer[i] && recovered[i] == all[i] && dbs[i + 1] == longer[i + 1];
      }
    }
  }

  lemma TrailEnds(finalize: Finalizer, pending: seq<HubClosure.PendingRow>, dbs: seq<Database>,
                  recovered: seq<ReservationOutcome>)
    requires Trail(finalize, pending, dbs, recovered) && |recovered| == |pending|
    ensures HubClosure.FinalizeEach(finalize, dbs[0], pending)
            == HubClosure.Recovery(dbs[|pending|], Success(recovered))
  {
    TrailIs(finalize, pending, dbs, recovered);
    assert recovered + [] == recovered;
  }

  lemma TrailFails(finalize: Finalizer, pending: seq<HubClosure.PendingRow>, dbs: seq<Database>,
                   recovered: seq<ReservationOutcome>, after: Database, error: HubError)
    requires Trail(finalize, pending, dbs, recovered) && |recovered| < |pending|
    requires RanRow(finalize, dbs[|recovered|], pending[|recovered|], after, Failure(error))
    ensures HubClosure.FinalizeEach(finalize, dbs[0], pending) == HubClosure.Recovery(after, Failure(error))
  {
    TrailIs(finalize, pending, dbs, recovered);
  }

  function AfterResult(job: Job, row: ChannelRow, r: Reservation, signed: SignedReservationResult): Task {
    if IsSignedTarget(r) then ToSignState(job, row, r, signed) else ToCommit(job, row, r, signed, None)
  }

  /** What the step that signs a result finds, and what it makes of it. */
  ghost predicate SignsResult(c: Crypto, db: Database, job: Job, row: ChannelRow, r: Reservation,
                              signed: SignedReservationResult)
  {
    && FindReservation(c, db, row.terms, job.coin, job.nonce) == Success(r) && r.stage.Prepared?
    && signed.result == ResultFrom(r, row.terms, job.coin, job.nonce) && ValidateResult(signed.result).Pass?
    && signed.hubResultSignature == SignatureOf(c, ResultSigned(job.key, signed.result))
  }

  lemma ResultRefused(c: Crypto, db: Database, job: Job, row: ChannelRow, r: Reservation,
                      signed: SignedReservationResult, error: ProtocolError, log: seq<Signing>, after: seq<Signing>)
    requires SignsResult(c, db, job, row, r, signed) && VerifySignedResult(c, row.terms, signed) == Fail(error)
    requires after == log + [ResultSigned(job.key, signed.result)]
    ensures Runs(Advancing(c), db, ToSignResult(job, row), 7, db, after[|log|..], job.coin, job.nonce,
                 Failure(ProtocolFailure(error)))
  {
    RunsOnce(Advancing(c), db, ToSignResult(job, row), 7, db, [ResultSigned(job.key, signed.result)], job.coin,
             job.nonce, Failure(ProtocolFailure(error)));
    assert after[|log|..] == [ResultSigned(job.key, signed.result)];
  }

  /** A step that signs once, and the rest of the run, whose signatures follow it in the log. */
  lemma RunsSigned(advance: (Database, Task) -> Step, before: Database, task: Task, signing: Signing, next: Task,
                   k: nat, after: Database, log: seq<Signing>, between: seq<Signing>, end: seq<Signing>, coin: Bytes32,
                   nonce: Bytes32, r: Result<ReservationOutcome, HubError>)
    requires !task.Done? && advance(before, task) == Step(before, [signing], next)
    requires between == log + [signing] && between <= end
    requires Runs(advance, before, next, k, after, end[|between|..], coin, nonce, r)
    ensures Runs(advance, before, task, k + 1, after, end[|log|..], coin, nonce, r)
  {
    RunsFirst(advance, before, task, Step(before, [signing], next), k, after, end[|between|..], coin, nonce, r);
    assert [signing] + end[|between|..] == end[|log|..];
  }

  lemma ResultStep(c: Crypto, db: Database, job: Job, row: ChannelRow, r: Reservation, signed: SignedReservationResult)
    requires SignsResult(c, db, job, row, r, signed) && VerifySignedResult(c, row.terms, signed).Pass?
    ensures AdvanceSignResult(c, db, job, row)
            == Step(db, [ResultSigned(job.key, signed.result)], AfterResult(job, row, r, signed))
  {
  }

  lemma ResultAccepted(c: Crypto, db: Database, job: Job, row: ChannelRow, r: Reservation,
                       signed: SignedReservationResult, after: Database, log: seq<Signing>, between: seq<Signing>,
                       end: seq<Signing>, outcome: Result<ReservationOutcome, HubError>)
    requires SignsResult(c, db, job, row, r, signed) && VerifySignedResult(c, row.terms, signed).Pass?
    requires between == log + [ResultSigned(job.key, signed.result)] && between <= end
    requires Runs(Advancing(c), db, AfterResult(job, row, r, signed), 6, after, end[|between|..], job.coin, job.nonce,
                  outcome)
    ensures Runs(Advancing(c), db, ToSignResult(job, row), 7, after, end[|log|..], job.coin, job.nonce, outcome)
  {
    ResultStep(c, db, job, row, r, signed);
    RunsSigned(Advancing(c), db, ToSignResult(job, row), ResultSigned(job.key, signed.result),
               AfterResult(job, row, r, signed), 6, after, log, between, end, job.coin, job.nonce, outcome);
  }

  class HubStore {
    const c: Crypto
    var db: Database
    ghost var log: seq<Signing>

    constructor (c: Crypto)
      ensures this.c == c && db == map[] && log == []
    {
      this.c := c;
      db := map[];
      log := [];
    }

    /** `sign_hash`, remembered. */
    method SignHash(signing: Signing) returns (signature: Bytes96)
      modifies this`log
      ensures signature == SignatureOf(c, signing) && log == old(log) + [signing]
    {
      log := log + [signing];
      signature := c.blsSign(signing.key, c.sha256(SignedPreimage(c, signing)));
    }

    // -------------------------------------------------------------- registration

    method RegisterChannelRecord(reg: ChannelRegistration, now: u64, confirmationBlocks: u64, state: ChainState,
                                 peak: Option<Peak>) returns (r: Result<ChannelSnapshot, HubError>)
      modifies this`db
      ensures var after := Register(c, old(db), reg, now, confirmationBlocks, state, peak);
              if after.Failure? then db == old(db) && r == Failure(after.error)
              else db == after.value && r == Snapshot(c, after.value, reg.fundingCoinId)
    {
      var computed :- ValidateRegistration(c, reg);
      :- CheckedHeight("now", now);
      :- FitsColumn(confirmationBlocks);
      :- CheckPeakFits(peak);
      :- InsertChannelRow(reg.fundingCoinId, NewRow(c, reg, computed, confirmationBlocks, state, peak));
      r := Snapshot(c, db, reg.fundingCoinId);
    }

    method InsertChannelRow(coin: Bytes32, asked: ChannelRow) returns (r: Outcome<HubError>)
      modifies this`db
      ensures match InsertChannel(c, old(db), coin, asked)
              case Failure(error) => r == Fail(error) && db == old(db)
              case Success(after) => r == Pass && db == after
    {
      var tx := db;
      if coin !in tx {
        tx := tx[coin := Channel(asked, map[], map[], [], map[])];
      }
      var stored := LoadChannel(c, tx, coin);
      if stored.Failure? {
        return Fail(stored.error);
      }
      if !Registered(c, stored.value, asked) {
        return Fail(ChannelConflict);
      }
      db := tx;
      return Pass;
    }

    // -------------------------------------------------------------- the first transaction

    /** The gate, run on a record of the channel the transaction has loaded. */
    method EvaluateReservationGate(row: ChannelRow, gate: Gate) returns (r: Result<(ChannelRow, Gated), HubError>)
      ensures r == EvaluateGate(row, gate)
    {
      match gate
      case Manual(height) =>
        :- CheckedHeight("observed_peak_height", height);
        var blocking := if height >= row.acceptanceCutoffHeight then Some(RejectedFreezing) else None;
        return Success((row, Gated(height, blocking)));
      case Chain(initial, committed) =>
        var record := new ChannelRecord(row);
        var gated :- record.EvaluateSnapshots(initial, committed);
        return Success((record.row, gated));
    }

    method DecideReservation(request: ReservationRequest, row: ChannelRow, authorization: Bytes32, gated: Gated)
      returns (r: Result<Decision, HubError>)
      requires request.fundingCoinId in db
      ensures r == Decide(c, db, request, row, authorization, gated)
    {
      var targetStatus := ReservationStatus.Signed;
      if VerifyHash(c, row.terms.userPublicKey, authorization, request.signature).Fail? {
        targetStatus := InvalidAuthorization;
      } else if gated.blocking.Some? {
        targetStatus := gated.blocking.value;
      }
      if targetStatus != ReservationStatus.Signed {
        return Success(Reject(targetStatus, None));
      }
      if HasPreparedIntent(db[request.fundingCoinId]) {
        return Failure(PendingTransition);
      }
      var rows :- LoadLedger(c, db, request.fundingCoinId);
      var entryIndex: u64 := |rows| % 0x1_0000_0000_0000_0000;
      r := DecideAppended(request.fundingCoinId, row, Entries(rows) + [request.entry],
                          Signatures(rows) + [request.signature], entryIndex);
    }

    method DecideAppended(coin: Bytes32, row: ChannelRow, entries: seq<LedgerEntry>, signatures: seq<Bytes96>,
                          entryIndex: u64)
      returns (r: Result<Decision, HubError>)
      ensures r == DecideLedger(c, db, coin, row, entries, signatures, entryIndex)
    {
      var totals := Ledgers.Validate(c, row.terms, entries);
      if totals.Failure? {
        return RejectForRoom(totals.error, entryIndex);
      }
      return AcceptCandidate(c, db, coin, row, entries, signatures, entryIndex);
    }

    /** Inserts the reservation row and, for an acceptance, the intent; commits both or neither. */
    method InsertPrepared(request: ReservationRequest, row: ChannelRow, reservation: Reservation, d: Decision)
      returns (r: Result<Database, HubError>)
      requires request.fundingCoinId in db
      modifies this`db
      ensures r == WritePrepared(old(db), request, row, reservation, d)
      ensures db == if r.Success? then r.value else old(db)
    {
      var tx := db[request.fundingCoinId];
      :- FitsColumn(reservation.observedPeakHeight);
      :- FitsColumn(reservation.acceptanceCutoffHeight);
      :- FitsColumn(reservation.scheduledCloseHeight);
      tx := tx.(row := row);
      tx := tx.(reservations := tx.reservations[request.entry.reservationNonce := reservation]);
      if d.Accept? {
        if !IntentFits(tx, d.checkpoint, d.hash) {
          return Failure(HubError.Database("UNIQUE constraint on state intents"));
        }
        var intent := Intent(d.checkpoint.previousCheckpointHash, d.hash, d.checkpoint, reservation.observedPeakHeight,
                             request.entry.reservationNonce, Prepared, None, None);
        tx := tx.(intents := tx.intents[d.checkpoint.stateSequence := intent]);
      }
      db := db[request.fundingCoinId := tx];
      return Success(db);
    }

    /** The first transaction. */
    method PrepareReservation(request: ReservationRequest, gate: Gate, key: SecretKey, now: u64)
      returns (r: Result<Preparation, HubError>)
      modifies this`db
      ensures r == Prepare(c, old(db), request, gate, key, now)
      ensures db == if r.Success? && r.value.Fresh? then r.value.db else old(db)
    {
      var read :- ReadForReservation(c, db, request, key, now);
      var (fingerprint, row, authorization) := read;
      var coin, nonce := request.fundingCoinId, request.entry.reservationNonce;
      var existing :- LoadReservation(c, db, coin, nonce);
      if existing.Some? {
        var valid := ValidateBinding(c, existing.value, row.terms, coin, nonce);
        :- valid;
        if existing.value.requestFingerprint != fingerprint {
          return Failure(NonceConflict);
        }
        return Success(Existing(existing.value.stage));
      }
      var evaluated :- EvaluateReservationGate(row, gate);
      var (after, gated) := evaluated;
      var d :- DecideReservation(request, after, authorization, gated);
      var reservation := PreparedRow(request, fingerprint, authorization, after, gated.observedPeakHeight, d);
      var prepared :- InsertPrepared(request, after, reservation, d);
      return Success(Fresh(prepared));
    }

    // -------------------------------------------------------------- reading a completed reservation

    method CompletedReservation(coin: Bytes32, nonce: Bytes32) returns (r: Result<ReservationOutcome, HubError>)
      ensures Runs(Advancing(c), db, ToReadChannel(coin, nonce), 3, db, [], coin, nonce, r)
    {
      var row := LoadChannel(c, db, coin);
      if row.Failure? {
        r := Failure(row.error);
        RunsOnce(Advancing(c), db, ToReadChannel(coin, nonce), 3, db, [], coin, nonce, r);
        return;
      }
      r := CompletedAnswer(coin, nonce, row.value);
      RunsFirst(Advancing(c), db, ToReadChannel(coin, nonce), Step(db, [], ToReadAnswer(coin, nonce, row.value)), 2,
                db, [], coin, nonce, r);
    }

    method CompletedAnswer(coin: Bytes32, nonce: Bytes32, row: ChannelRow)
      returns (r: Result<ReservationOutcome, HubError>)
      ensures Runs(Advancing(c), db, ToReadAnswer(coin, nonce, row), 2, db, [], coin, nonce, r)
    {
      var read := ReadAnswer(c, db, row.terms, coin, nonce);
      if read.Failure? {
        r := Failure(read.error);
        RunsOnce(Advancing(c), db, ToReadAnswer(coin, nonce, row), 2, db, [], coin, nonce, r);
      } else if read.value.1.None? {
        r := Success(ReservationOutcome(read.value.0, None));
        RunsOnce(Advancing(c), db, ToReadAnswer(coin, nonce, row), 2, db, [], coin, nonce, r);
      } else {
        r := CompletedPackage(coin, nonce, read.value.0, read.value.1.value);
        RunsFirst(Advancing(c), db, ToReadAnswer(coin, nonce, row),
                  Step(db, [], ToReadPackage(coin, nonce, read.value.0, read.value.1.value)), 1, db, [], coin, nonce,
                  r);
      }
    }

    method CompletedPackage(coin: Bytes32, nonce: Bytes32, signed: SignedReservationResult, sequence: u64)
      returns (r: Result<ReservationOutcome, HubError>)
      ensures Runs(Advancing(c), db, ToReadPackage(coin, nonce, signed, sequence), 1, db, [], coin, nonce, r)
    {
      var package := ReadPackage(c, db, coin, sequence);
      r := match package
        case Success(p) => Success(ReservationOutcome(signed, Some(p)))
        case Failure(error) => Failure(error);
      RunsOnce(Advancing(c), db, ToReadPackage(coin, nonce, signed, sequence), 1, db, [], coin, nonce, r);
    }

    // -------------------------------------------------------------- the second transaction

    /** The four writes of a state, on the transaction's copy of the channel. */
    method AppendToChannel(ch: Channel, r: Reservation, nonce: Bytes32, state: OfficialState, package: RecoveryPackage,
                           hash: Bytes32, index: u64) returns (appended: Result<Channel, HubError>)
      requires state.checkpoint.stateSequence in ch.intents
      ensures appended == AppendState(ch, r, nonce, state, package, hash, index)
    {
      var tx, sequence := ch, state.checkpoint.stateSequence;
      if !StateFits(tx, sequence, hash) {
        return Failure(HubError.Database("UNIQUE constraint on states"));
      }
      tx := tx.(states := tx.states[sequence := StateRow(hash, state, package, r.observedPeakHeight)]);
      var ledgerRow := LedgerRow(index, r.entry, r.signature, nonce, sequence);
      if !LedgerRowFits(tx.ledger, ledgerRow) {
        return Failure(HubError.Database("UNIQUE constraint on ledger entries"));
      }
      tx := tx.(ledger := InsertRow(tx.ledger, ledgerRow));
      tx := tx.(row := tx.row.(latestSequence := sequence, latestCheckpointHash := hash));
      var intent := tx.intents[sequence].(stage := Stage.Signed, hubStateSignature := Some(state.hubStateSignature),
                                          recoveryPackage := Some(package));
      tx := tx.(intents := tx.intents[sequence := intent]);
      return Success(tx);
    }

    method CommitStateOf(coin: Bytes32, nonce: Bytes32, r: Reservation, state: OfficialState, package: RecoveryPackage)
      returns (appended: Result<Channel, HubError>)
      requires coin in db
      ensures appended == CommitState(c, db, coin, nonce, r, state, package)
    {
      var current :- LoadChannel(c, db, coin);
      var k := state.checkpoint;
      var hash :- Lift(CheckpointHash(c, current.terms, k));
      if k.stateSequence != current.latestSequence + 1 || k.previousCheckpointHash != current.latestCheckpointHash
         || Some(hash) != r.targetCheckpointHash {
        return Failure(StateConflict);
      }
      :- FitsColumn(k.stateSequence);
      if k.stateSequence !in db[coin].intents || db[coin].intents[k.stateSequence].checkpointHash != hash {
        return Failure(HubError.Database("no such intent"));
      }
      if !db[coin].intents[k.stateSequence].stage.Prepared? {
        return Failure(StateConflict);
      }
      if r.entryIndex.None? {
        return Failure(Corrupt("signed reservation entry index"));
      }
      appended := AppendToChannel(db[coin], r, nonce, state, package, hash, r.entryIndex.value);
    }

    /** Commits everything, or nothing; `false` when another call had already finalized the row. */
    method CommitTransaction(coin: Bytes32, nonce: Bytes32, terms: ChannelTerms, r: Reservation,
                             signed: SignedReservationResult, work: Option<(OfficialState, RecoveryPackage)>)
      returns (written: Result<bool, HubError>)
      modifies this`db
      ensures match Commit(c, old(db), coin, nonce, terms, r, signed, work)
              case Failure(error) => written == Failure(error) && db == old(db)
              case Success(None) => written == Success(false) && db == old(db)
              case Success(Some(after)) => written == Success(true) && db == after
    {
      var persisted :- FindReservation(c, db, terms, coin, nonce);
      if persisted.stage.Signed? {
        return Success(false);
      }
      if persisted.requestFingerprint != r.requestFingerprint || persisted.targetStatus != r.targetStatus
         || persisted.targetCheckpointHash != r.targetCheckpointHash {
        return Failure(StateConflict);
      }
      var tx := db[coin];
      if work.Some? {
        tx :- CommitStateOf(coin, nonce, r, work.value.0, work.value.1);
      }
      var signedRow := persisted.(stage := Stage.Signed, signedResult := Some(signed));
      tx := tx.(reservations := tx.reservations[nonce := signedRow]);
      db := db[coin := tx];
      return Success(true);
    }

    // -------------------------------------------------------------- finalizing

    method CommitPrepared(job: Job, row: ChannelRow, r: Reservation, signed: SignedReservationResult,
                          work: Option<(OfficialState, RecoveryPackage)>)
      returns (outcome: Result<ReservationOutcome, HubError>)
      modifies this`db
      ensures Runs(Advancing(c), old(db), ToCommit(job, row, r, signed, work), 4, db, [], job.coin, job.nonce, outcome)
    {
      ghost var task := ToCommit(job, row, r, signed, work);
      if job.point.AfterStateSignature? {
        outcome := Failure(InjectedFailure(job.point));
        RunsOnce(Advancing(c), old(db), task, 4, db, [], job.coin, job.nonce, outcome);
        return;
      }
      var written := CommitTransaction(job.coin, job.nonce, row.terms, r, signed, work);
      if written.Failure? {
        outcome := Failure(written.error);
        RunsOnce(Advancing(c), old(db), task, 4, db, [], job.coin, job.nonce, outcome);
      } else if !written.value {
        outcome := CompletedReservation(job.coin, job.nonce);
        RunsFirst(Advancing(c), old(db), task, Step(db, [], ToReadChannel(job.coin, job.nonce)), 3, db, [], job.coin,
                  job.nonce, outcome);
      } else {
        outcome := Success(ReservationOutcome(signed, if work.Some? then Some(work.value.1) else None));
        RunsOnce(Advancing(c), old(db), task, 4, db, [], job.coin, job.nonce, outcome);
      }
    }

    method FinalizeState(job: Job, row: ChannelRow, r: Reservation, signed: SignedReservationResult,
                         state: OfficialState)
      returns (outcome: Result<ReservationOutcome, HubError>)
      modifies this`db
      ensures Runs(Advancing(c), old(db), ToPackage(job, row, r, signed, state), 5, db, [], job.coin, job.nonce,
                   outcome)
    {
      ghost var task := ToPackage(job, row, r, signed, state);
      var package := MakePackage(c, db, row, job.coin, r, state);
      if package.Failure? {
        outcome := Failure(package.error);
        RunsOnce(Advancing(c), old(db), task, 5, db, [], job.coin, job.nonce, outcome);
        return;
      }
      var work := Some((state, package.value));
      outcome := CommitPrepared(job, row, r, signed, work);
      RunsFirst(Advancing(c), old(db), task, Step(old(db), [], ToCommit(job, row, r, signed, work)), 4, db, [],
                job.coin, job.nonce, outcome);
    }

    method FinalizeAccepted(job: Job, row: ChannelRow, r: Reservation, signed: SignedReservationResult)
      returns (outcome: Result<ReservationOutcome, HubError>)
      modifies this`db, this`log
      ensures old(log) <= log
      ensures Runs(Advancing(c), old(db), ToSignState(job, row, r, signed), 6, db, log[|old(log)|..], job.coin,
                   job.nonce, outcome)
    {
      ghost var task := ToSignState(job, row, r, signed);
      if r.targetStateSequence.None? {
        outcome := Failure(Corrupt("signed reservation sequence"));
        RunsOnce(Advancing(c), old(db), task, 6, db, [], job.coin, job.nonce, outcome);
        return;
      }
      var found := LoadIntentCheckpoint(db, job.coin, r.targetStateSequence.value);
      if found.Failure? {
        outcome := Failure(found.error);
        RunsOnce(Advancing(c), old(db), task, 6, db, [], job.coin, job.nonce, outcome);
        return;
      }
      var valid := ValidateCheckpoint(c, row.terms, found.value);
      if valid.Fail? {
        outcome := Failure(ProtocolFailure(valid.error));
        RunsOnce(Advancing(c), old(db), task, 6, db, [], job.coin, job.nonce, outcome);
        return;
      }
      outcome := SignAndFinalizeState(job, row, r, signed, found.value);
    }

    method SignAndFinalizeState(job: Job, row: ChannelRow, r: Reservation, signed: SignedReservationResult,
                                k: LedgerCheckpoint)
      returns (outcome: Result<ReservationOutcome, HubError>)
      requires r.targetStateSequence.Some?
               && LoadIntentCheckpoint(db, job.coin, r.targetStateSequence.value) == Success(k)
      requires ValidateCheckpoint(c, row.terms, k).Pass?
      modifies this`db, this`log
      ensures old(log) <= log
      ensures Runs(Advancing(c), old(db), ToSignState(job, row, r, signed), 6, db, log[|old(log)|..], job.coin,
                   job.nonce, outcome)
    {
      ghost var task, signing := ToSignState(job, row, r, signed), StateSigned(job.key, row.terms, k);
      var signature := SignHash(StateSigned(job.key, row.terms, k));
      var state := OfficialState(k, signature);
      var verified := VerifyOfficialState(c, row.terms, state);
      if verified.Fail? {
        outcome := Failure(ProtocolFailure(verified.error));
        RunsOnce(Advancing(c), old(db), task, 6, db, [signing], job.coin, job.nonce, outcome);
        return;
      }
      outcome := FinalizeState(job, row, r, signed, state);
      RunsFirst(Advancing(c), old(db), task, Step(old(db), [signing], ToPackage(job, row, r, signed, state)), 5, db, [],
                job.coin, job.nonce, outcome);
      assert [signing] + [] == log[|old(log)|..];
    }

    method FinalizeFound(job: Job, row: ChannelRow) returns (outcome: Result<ReservationOutcome, HubError>)
      modifies this`db, this`log
      ensures old(log) <= log
      ensures Runs(Advancing(c), old(db), ToSignResult(job, row), 7, db, log[|old(log)|..], job.coin, job.nonce,
                   outcome)
    {
      ghost var task := ToSignResult(job, row);
      var found := FindReservation(c, db, row.terms, job.coin, job.nonce);
      if found.Failure? {
        outcome := Failure(found.error);
        RunsOnce(Advancing(c), old(db), task, 7, db, [], job.coin, job.nonce, outcome);
        return;
      }
      if found.value.stage.Signed? {
        outcome := CompletedReservation(job.coin, job.nonce);
        RunsFirst(Advancing(c), old(db), task, Step(db, [], ToReadChannel(job.coin, job.nonce)), 3, db, [], job.coin,
                  job.nonce, outcome);
        RunsLonger(Advancing(c), old(db), task, 4, 7, db, [], job.coin, job.nonce, outcome);
        return;
      }
      var valid := ValidateResult(ResultFrom(found.value, row.terms, job.coin, job.nonce));
      if valid.Fail? {
        outcome := Failure(ProtocolFailure(valid.error));
        RunsOnce(Advancing(c), old(db), task, 7, db, [], job.coin, job.nonce, outcome);
        return;
      }
      outcome := SignAndFinalizeResult(job, row, found.value);
    }

    method SignAndFinalizeResult(job: Job, row: ChannelRow, r: Reservation)
      returns (outcome: Result<ReservationOutcome, HubError>)
      requires FindReservation(c, db, row.terms, job.coin, job.nonce) == Success(r) && r.stage.Prepared?
      requires ValidateResult(ResultFrom(r, row.terms, job.coin, job.nonce)).Pass?
      modifies this`db, this`log
      ensures old(log) <= log
      ensures Runs(Advancing(c), old(db), ToSignResult(job, row), 7, db, log[|old(log)|..], job.coin, job.nonce,
                   outcome)
    {
      var result := ResultFrom(r, row.terms, job.coin, job.nonce);
      var signature := SignHash(ResultSigned(job.key, result));
      var signed := SignedReservationResult(result, signature);
      outcome := FinishResult(job, row, r, signed, old(log));
    }

    /** Checks the signature just made over a result and goes on from there. */
    method FinishResult(job: Job, row: ChannelRow, r: Reservation, signed: SignedReservationResult,
                        ghost unsigned: seq<Signing>)
      returns (outcome: Result<ReservationOutcome, HubError>)
      requires SignsResult(c, db, job, row, r, signed) && log == unsigned + [ResultSigned(job.key, signed.result)]
      modifies this`db, this`log
      ensures unsigned <= log
      ensures Runs(Advancing(c), old(db), ToSignResult(job, row), 7, db, log[|unsigned|..], job.coin, job.nonce,
                   outcome)
    {
      var verified := VerifySignedResult(c, row.terms, signed);
      if verified.Fail? {
        outcome := Failure(ProtocolFailure(verified.error));
        ResultRefused(c, db, job, row, r, signed, verified.error, unsigned, log);
      } else {
        outcome := FinalizeVerified(job, row, r, signed);
        ResultAccepted(c, old(db), job, row, r, signed, db, unsigned, old(log), log, outcome);
      }
    }

    method FinalizeVerified(job: Job, row: ChannelRow, r: Reservation, signed: SignedReservationResult)
      returns (outcome: Result<ReservationOutcome, HubError>)
      modifies this`db, this`log
      ensures old(log) <= log
      ensures Runs(Advancing(c), old(db), AfterResult(job, row, r, signed), 6, db, log[|old(log)|..], job.coin,
                   job.nonce, outcome)
    {
      if IsSignedTarget(r) {
        outcome := FinalizeAccepted(job, row, r, signed);
      } else {
        outcome := CommitPrepared(job, row, r, signed, None);
        RunsLonger(Advancing(c), old(db), ToCommit(job, row, r, signed, None), 4, 6, db, [], job.coin, job.nonce,
                   outcome);
      }
    }

    /** `finalize_prepared`: whatever the database held, this is the machine's uninterrupted run of the call. */
    method FinalizePrepared(job: Job) returns (outcome: Result<ReservationOutcome, HubError>)
      modifies this`db, this`log
      ensures old(log) <= log
      ensures Runs(Advancing(c), old(db), ToFindChannel(job), 8, db, log[|old(log)|..], job.coin, job.nonce, outcome)
    {
      ghost var task := ToFindChannel(job);
      var row := FindChannel(c, db, job.coin, job.key);
      if row.Failure? {
        outcome := Failure(row.error);
        RunsOnce(Advancing(c), old(db), task, 8, db, [], job.coin, job.nonce, outcome);
        return;
      }
      outcome := FinalizeFound(job, row.value);
      RunsFirst(Advancing(c), old(db), task, Step(old(db), [], ToSignResult(job, row.value)), 7, db, log[|old(log)|..],
                job.coin, job.nonce, outcome);
      assert [] + log[|old(log)|..] == log[|old(log)|..];
    }

    // -------------------------------------------------------------- reserving and recovering

    /** `reserve_internal`: the machine's uninterrupted run of a reservation. */
    method ReserveInternal(request: ReservationRequest, gate: Gate, key: SecretKey, now: u64, point: FailurePoint)
      returns (outcome: Result<ReservationOutcome, HubError>)
      modifies this`db, this`log
      ensures old(log) <= log
      ensures Runs(Advancing(c), old(db), Begin(request, gate, key, now, point), 9, db, log[|old(log)|..],
                   request.fundingCoinId, request.entry.reservationNonce, outcome)
    {
      ghost var task := Begin(request, gate, key, now, point);
      var coin, nonce := request.fundingCoinId, request.entry.reservationNonce;
      var job := Job(coin, nonce, key, point);
      var prepared := PrepareReservation(request, gate, key, now);
      if prepared.Failure? {
        outcome := Failure(prepared.error);
        RunsOnce(Advancing(c), old(db), task, 9, db, [], coin, nonce, outcome);
        return;
      }
      if prepared.value == Existing(Stage.Signed) {
        outcome := CompletedReservation(coin, nonce);
        RunsFirst(Advancing(c), old(db), task, Step(db, [], ToReadChannel(coin, nonce)), 3, db, [], coin, nonce,
                  outcome);
        RunsLonger(Advancing(c), old(db), task, 4, 9, db, [], coin, nonce, outcome);
        return;
      }
      if prepared.value.Fresh? && point.AfterPreparationCommit? {
        outcome := Failure(InjectedFailure(point));
        RunsOnce(Advancing(c), old(db), task, 9, db, [], coin, nonce, outcome);
        return;
      }
      outcome := FinalizeReserved(job, old(db), task);
    }

    /** What remains of a reservation that is prepared. */
    method FinalizeReserved(job: Job, ghost before: Database, ghost task: Task)
      returns (outcome: Result<ReservationOutcome, HubError>)
      requires !task.Done? && Advancing(c)(before, task) == Step(db, [], ToFindChannel(job))
      modifies this`db, this`log
      ensures old(log) <= log
      ensures Runs(Advancing(c), before, task, 9, db, log[|old(log)|..], job.coin, job.nonce, outcome)
    {
      outcome := FinalizePrepared(job);
      RunsFirst(Advancing(c), before, task, Step(old(db), [], ToFindChannel(job)), 8, db, log[|old(log)|..], job.coin,
                job.nonce, outcome);
      assert [] + log[|old(log)|..] == log[|old(log)|..];
    }

    /** The query of `recover_pending`: every prepared row, once. Creation times are not stored here, so the order is
        any. */
    method PendingRows() returns (pending: seq<HubClosure.PendingRow>)
      ensures HubClosure.Lists(db, pending)
    {
      var prepared := set coin, nonce | coin in db && nonce in db[coin].reservations
          && db[coin].reservations[nonce].stage.Prepared? ::
        (coin, nonce);
      pending := [];
      var left := prepared;
      while left != {}
        invariant forall i, j :: 0 <= i < j < |pending| ==> pending[i] != pending[j]
        invariant left <= prepared && forall row :: row in pending <==> row in prepared && row !in left
        decreases |left|
      {
        var row :| row in left;
        pending := pending + [row];
        left := left - {row};
      }
      forall row: HubClosure.PendingRow ensures row in prepared <==> HubClosure.IsOpen(db, row) {
        assert row == (row.0, row.1);
      }
    }

    /** `recover_pending`: list the prepared rows, finalize each, stop at the first failure. */
    method RecoverPending(key: SecretKey, now: u64)
      returns (r: Result<seq<ReservationOutcome>, HubError>, ghost pending: seq<HubClosure.PendingRow>)
      modifies this`db, this`log
      ensures now > MAX_PROTOCOL_U64 ==> r.Failure? && db == old(db) && log == old(log)
      ensures now <= MAX_PROTOCOL_U64 ==>
                && HubClosure.Lists(old(db), pending)
                && HubClosure.RecoverAll(c, old(db), pending, key) == HubClosure.Recovery(db, r)
    {
      pending := [];
      var valid := CheckedHeight("now", now);
      if valid.Fail? {
        return Failure(valid.error), pending;
      }
      var rows := PendingRows();
      pending := rows;
      r := RecoverRows(key, rows);
    }

    method RecoverRows(key: SecretKey, pending: seq<HubClosure.PendingRow>)
      returns (r: Result<seq<ReservationOutcome>, HubError>)
      modifies this`db, this`log
      ensures HubClosure.RecoverAll(c, old(db), pending, key) == HubClosure.Recovery(db, r)
    {
      var recovered: seq<ReservationOutcome> := [];
      ghost var dbs := [db];
      var i := 0;
      while i < |pending|
        invariant 0 <= i == |recovered| <= |pending| && |dbs| == i + 1 && dbs[0] == old(db) && dbs[i] == db
        invariant Trail(HubClosure.Finalizing(c, key), pending, dbs, recovered)
      {
        ghost var signed := log;
        var outcome := FinalizePrepared(Job(pending[i].0, pending[i].1, key, NoFailure));
        FinalizedRowRan(c, key, dbs[i], pending[i], db, log[|signed|..], outcome);
        if outcome.Failure? {
          TrailFails(HubClosure.Finalizing(c, key), pending, dbs, recovered, db, outcome.error);
          return Failure(outcome.error);
        }
        TrailGrows(HubClosure.Finalizing(c, key), pending, dbs, recovered, db, outcome.value);
        recovered := recovered + [outcome.value];
        dbs := dbs + [db];
        i := i + 1;
      }
      TrailEnds(HubClosure.Finalizing(c, key), pending, dbs, recovered);
      return Success(recovered);
    }
  }
}
