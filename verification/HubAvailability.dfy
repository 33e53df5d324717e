/** When recovery can be relied on: a run whose spends are seen at the recorded birth heights, one HUB key, and no
    rejection for want of room. */
module HubAvailability {
  import opened ByteStrings
  import opened Protocol
  import opened Types
  import opened HubRecords
  import opened HubGate
  import opened HubSteps
  import opened HubInvariant
  import opened HubReads
  import opened HubProgress
  import opened HubCommit
  import opened HubMachine
  import opened HubRuns
  import opened HubTheorems
  import opened HubRecovery
  import opened HubClosure

  ghost predicate AllLoad(db: Database) {
    forall coin {:trigger db[coin]} :: coin in db ==> HeightsBind(db[coin].row)
  }

  /** A spend, if the gate sees one, was recorded at a birth height that leaves the cutoff within its new bound. */
  predicate SpendFits(row: ChannelRow, gate: Gate) {
    SeesSpend(row, gate) ==>
      var birth := gate.committed.value.fundingCoin.birthHeight;
      if row.activated then row.acceptanceCutoffHeight <= birth + row.terms.acceptanceBlocks
      else birth == row.fundingBirthHeight
  }

  /** An event whose gate, if it evaluates one, sees only spends that fit. */
  predicate Gentle(w: World, event: Event) {
    event.Advances? && event.id in w.tasks && w.tasks[event.id].Begin? &&
    w.tasks[event.id].request.fundingCoinId in w.db ==>
      SpendFits(w.db[w.tasks[event.id].request.fundingCoinId].row, w.tasks[event.id].gate)
  }

  lemma WrittenRowKept(db: Database, request: ReservationRequest, row: ChannelRow, r: Reservation, d: Decision)
    requires request.fundingCoinId in db && WritePrepared(db, request, row, r, d).Success?
    ensures var after := WritePrepared(db, request, row, r, d).value;
            && request.fundingCoinId in after && after[request.fundingCoinId].row == row
            && after == db[request.fundingCoinId := after[request.fundingCoinId]]
  {
  }

  lemma FreshLoads(c: Crypto, db: Database, request: ReservationRequest, gate: Gate, fingerprint: Bytes32,
                   row: ChannelRow, authorization: Bytes32)
    requires AllLoad(db) && ReadyToPrepare(c, db, request, row, fingerprint, authorization) && SpendFits(row, gate)
    requires PrepareFresh(c, db, request, gate, fingerprint, row, authorization).Success?
    ensures AllLoad(PrepareFresh(c, db, request, gate, fingerprint, row, authorization).value)
  {
    FreshWrites(c, db, request, gate, fingerprint, row, authorization);
    TermsFacts(c, row.terms);
    GateKeepsHeightsIff(row, gate);
    var (after, gated) := EvaluateGate(row, gate).value;
    var d := Decide(c, db, request, after, authorization, gated).value;
    WrittenRowKept(db, request, after,
                   PreparedRow(request, fingerprint, authorization, after, gated.observedPeakHeight, d), d);
  }

  lemma PreparationLoads(c: Crypto, db: Database, request: ReservationRequest, gate: Gate, key: SecretKey, now: u64)
    requires DatabaseOk(c, db) && AllLoad(db)
    requires request.fundingCoinId in db ==> SpendFits(db[request.fundingCoinId].row, gate)
    requires Prepare(c, db, request, gate, key, now).Success? && Prepare(c, db, request, gate, key, now).value.Fresh?
    ensures AllLoad(Prepare(c, db, request, gate, key, now).value.db)
  {
    FreshPreparation(c, db, request, gate, key, now);
    PreparationReads(c, db, request, gate, key, now);
    var (fingerprint, row, authorization) := ReadForReservation(c, db, request, key, now).value;
    FreshLoads(c, db, request, gate, fingerprint, row, authorization);
  }

  lemma FinalizedHeights(ch: Channel, nonce: Bytes32, r: Reservation, signed: SignedReservationResult,
                         state: Option<(OfficialState, RecoveryPackage)>)
    ensures SameHeights(Finalized(ch, nonce, r, signed, state).row, ch.row)
    ensures Finalized(ch, nonce, r, signed, state).row.terms == ch.row.terms
  {
  }

  lemma CommitDatabase(c: Crypto, db: Database, job: Job, row: ChannelRow, r: Reservation,
                       signed: SignedReservationResult, work: Option<(OfficialState, RecoveryPackage)>,
                       finalized: Database)
    requires Commit(c, db, job.coin, job.nonce, row.terms, r, signed, work).Success? ==>
               Commit(c, db, job.coin, job.nonce, row.terms, r, signed, work).value in {None, Some(finalized)}
    ensures AdvanceCommit(c, db, job, row, r, signed, work).db in {db, finalized}
  {
  }

  lemma FinalizedLoads(db: Database, coin: Bytes32, nonce: Bytes32, r: Reservation, signed: SignedReservationResult,
                       work: Option<(OfficialState, RecoveryPackage)>)
    requires AllLoad(db) && coin in db
    ensures AllLoad(db[coin := Finalized(db[coin], nonce, r, signed, work)])
  {
    FinalizedHeights(db[coin], nonce, r, signed, work);
  }

  lemma CommitLoads(c: Crypto, db: Database, job: Job, row: ChannelRow, r: Reservation, signed: SignedReservationResult,
                    work: Option<(OfficialState, RecoveryPackage)>)
    requires TaskOk(c, db, ToCommit(job, row, r, signed, work)) && ChannelOk(c, job.coin, db[job.coin]) && AllLoad(db)
    ensures AllLoad(AdvanceCommit(c, db, job, row, r, signed, work).db)
  {
    var finalized := db[job.coin := Finalized(db[job.coin], job.nonce, r, signed, work)];
    CommitIs(c, db, job.coin, job.nonce, r, signed, work);
    CommitDatabase(c, db, job, row, r, signed, work, finalized);
    FinalizedLoads(db, job.coin, job.nonce, r, signed, work);
  }

  lemma BeginLoads(c: Crypto, db: Database, request: ReservationRequest, gate: Gate, key: SecretKey, now: u64,
                   point: FailurePoint)
    requires DatabaseOk(c, db) && AllLoad(db)
    requires request.fundingCoinId in db ==> SpendFits(db[request.fundingCoinId].row, gate)
    ensures AllLoad(AdvanceBegin(c, db, request, gate, key, now, point).db)
  {
    var prepared := Prepare(c, db, request, gate, key, now);
    if prepared.Success? && prepared.value.Fresh? {
      PreparationLoads(c, db, request, gate, key, now);
    }
  }

  lemma StepLoads(c: Crypto, db: Database, task: Task)
    requires DatabaseOk(c, db) && TaskOk(c, db, task) && AllLoad(db) && !task.Done?
    requires task.Begin? && task.request.fundingCoinId in db ==>
               SpendFits(db[task.request.fundingCoinId].row, task.gate)
    ensures AllLoad(Advance(c, db, task).db)
  {
    if task.Begin? {
      BeginLoads(c, db, task.request, task.gate, task.key, task.now, task.point);
    } else if task.ToCommit? {
      assert ChannelOk(c, task.job.coin, db[task.job.coin]);
      CommitLoads(c, db, task.job, task.row, task.r, task.signed, task.work);
    } else {
      ReadingOk(c, db, task);
    }
  }

  lemma RegistrationLoads(c: Crypto, db: Database, event: Event)
    requires DatabaseOk(c, db) && AllLoad(db) && event.Registers?
    requires Register(c, db, event.reg, event.now, event.confirmationBlocks, event.state, event.peak).Success?
    ensures AllLoad(Register(c, db, event.reg, event.now, event.confirmationBlocks, event.state, event.peak).value)
  {
    var after, coin := Register(c, db, event.reg, event.now, event.confirmationBlocks, event.state, event.peak).value,
        event.reg.fundingCoinId;
    RegisterInserts(c, db, event.reg, event.now, event.confirmationBlocks, event.state, event.peak);
    RegisterKeeps(c, db, event.reg, event.now, event.confirmationBlocks, event.state, event.peak);
    if coin !in db {
      assert ChannelOk(c, coin, after[coin]);
      RegisteredLoads(c, db, event);
      ChannelLoadsIff(c, after, coin);
    }
  }

  lemma RegisteredLoads(c: Crypto, db: Database, event: Event)
    requires event.Registers?
    requires Register(c, db, event.reg, event.now, event.confirmationBlocks, event.state, event.peak).Success?
    ensures LoadChannel(c,
                        Register(c, db, event.reg, event.now, event.confirmationBlocks, event.state, event.peak).value,
                        event.reg.fundingCoinId).Success?
  {
  }

  lemma ApplyLoads(c: Crypto, w: World, event: Event)
    requires WorldOk(c, w) && AllLoad(w.db) && Gentle(w, event)
    ensures AllLoad(Apply(c, w, event).db)
  {
    match event
    case Registers(reg, now, confirmationBlocks, state, peak) =>
      if Register(c, w.db, reg, now, confirmationBlocks, state, peak).Success? {
        RegistrationLoads(c, w.db, event);
      }
    case Advances(id) =>
      if id in w.tasks && !w.tasks[id].Done? {
        assert TaskOk(c, w.db, w.tasks[id]);
        StepLoads(c, w.db, w.tasks[id]);
      }
    case _ =>
  }

  ghost predicate GentleRun(c: Crypto, events: seq<Event>) {
    events == [] || (GentleRun(c, events[..|events| - 1])
                     && Gentle(Run(c, events[..|events| - 1]), events[|events| - 1]))
  }

  /** In such a run every registered channel always loads. */
  lemma {:induction false} GentleRunsLoad(c: Crypto, events: seq<Event>)
    requires GentleRun(c, events)
    ensures AllLoad(Run(c, events).db)
  {
    if events != [] {
      var front := events[..|events| - 1];
      GentleRunsLoad(c, front);
      RunOk(c, front);
      ApplyLoads(c, Run(c, front), events[|events| - 1]);
    }
  }

  /** The three causes a prepared row has for staying so: its channel no longer loads, the key is another's, or it was
      rejected for want of room. */
  predicate CanRecover(c: Crypto, db: Database, key: SecretKey, row: PendingRow)
    requires IsOpen(db, row)
  {
    && HeightsBind(db[row.0].row)
    && c.publicKey(key) == db[row.0].row.terms.hubStatePublicKeyA
    && !IsStuck(db, row)
  }

  /** The HUB's recovery guarantee, after any run with crashes anywhere: recovering every prepared row succeeds if and
      only if each has a channel that loads, is the key's, and is not rejected for want of room; and then nothing is
      left prepared. */
  lemma RecoverySucceedsIff(c: Crypto, events: seq<Event>, pending: seq<PendingRow>, key: SecretKey)
    requires SignsCorrectly(c) && Lists(Run(c, events).db, pending)
    ensures var db := Run(c, events).db;
            var recovered := RecoverAll(c, db, pending, key);
            && (recovered.outcomes.Success? <==>
                forall row: PendingRow :: IsOpen(db, row) ==> CanRecover(c, db, key, row))
            && (recovered.outcomes.Success? ==>
                  && recovered.db == ClosedDatabase(c, key, db)
                  && (forall row: PendingRow :: !IsOpen(recovered.db, row)))
  {
    RunOk(c, events);
    RecoverableIff(c, Run(c, events).db, key);
    RecoveryRuns(c, Run(c, events).db, pending, key);
  }

  lemma RecoverableIff(c: Crypto, db: Database, key: SecretKey)
    requires DatabaseOk(c, db) && SignsCorrectly(c)
    ensures Recoverable(c, db, key) <==> forall row: PendingRow :: IsOpen(db, row) ==> CanRecover(c, db, key, row)
  {
    forall row: PendingRow | IsOpen(db, row)
      ensures Finalizable(c, key, db, row.0, row.1) <==> CanRecover(c, db, key, row)
    {
      OpenIsFinalizable(c, db, key, row);
    }
  }

  /** In a run whose spends fit, with one HUB key, rejections for want of room are the only cause left. */
  lemma GentleRecoverySucceedsIff(c: Crypto, events: seq<Event>, pending: seq<PendingRow>, key: SecretKey)
    requires GentleRun(c, events) && SignsCorrectly(c) && Lists(Run(c, events).db, pending)
    requires forall coin :: coin in Run(c, events).db ==>
               Run(c, events).db[coin].row.terms.hubStatePublicKeyA == c.publicKey(key)
    ensures RecoverAll(c, Run(c, events).db, pending, key).outcomes.Success? <==>
            forall row: PendingRow :: !IsStuck(Run(c, events).db, row)
  {
    GentleRunsLoad(c, events);
    RecoverySucceedsIff(c, events, pending, key);
    var db := Run(c, events).db;
    forall row: PendingRow | IsOpen(db, row) ensures CanRecover(c, db, key, row) <==> !IsStuck(db, row) {
      assert HeightsBind(db[row.0].row);
    }
  }
}
