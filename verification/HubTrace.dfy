/** What one event of a run writes: a registration adds a channel, the first transaction of a reservation adds a row and
    what its gate saw, and nothing else touches either. */
module HubTrace {
  import opened ByteStrings
  import opened Protocol
  import opened Types
  import opened HubRecords
  import opened HubGate
  import opened HubSteps
  import opened HubInvariant
  import opened HubProgress
  import opened HubRuns
  import opened HubMachine
  import opened HubTheorems
  import HubAvailability
  import HubCommit

  function LastPeak(row: ChannelRow): (Option<u64>, Option<Bytes32>) {
    (row.lastPeakHeight, row.lastPeakHash)
  }

  /** The event is a first transaction that adds a row for its nonce. */
  predicate Prepares(c: Crypto, w: World, event: Event, coin: Bytes32) {
    && event.Advances? && event.id in w.tasks && w.tasks[event.id].Begin?
    && w.tasks[event.id].request.fundingCoinId == coin && coin in w.db
    && (var nonce := w.tasks[event.id].request.entry.reservationNonce;
        && nonce !in w.db[coin].reservations
        && coin in Apply(c, w, event).db && nonce in Apply(c, w, event).db[coin].reservations)
  }

  /** The channel keeps the last peak and has no row it had not. */
  ghost predicate KeepsRecord(before: Channel, after: Channel) {
    LastPeak(after.row) == LastPeak(before.row) && after.reservations.Keys == before.reservations.Keys
  }

  // ---------------------------------------------------------------- the first transaction

  /** What a first transaction leaves on its channel: the gated row, and one prepared row more. */
  ghost predicate Wrote(c: Crypto, before: Channel, after: Channel, request: ReservationRequest, gate: Gate,
                        d: Decision)
  {
    && EvaluateGate(before.row, gate).Success?
    && (var (gated, verdict) := EvaluateGate(before.row, gate).value;
        && after.row == gated
        && after.reservations ==
           before.reservations[request.entry.reservationNonce :=
             PreparedRow(request, FingerprintDigest(c, request.entry, request.signature),
                         AuthorizationDigest(c, before.row.terms, request.fundingCoinId, request.entry), gated,
                         verdict.observedPeakHeight, d)])
  }

  lemma WritesRow(db: Database, request: ReservationRequest, row: ChannelRow, r: Reservation, d: Decision)
    requires request.fundingCoinId in db && WritePrepared(db, request, row, r, d).Success?
    ensures var after := WritePrepared(db, request, row, r, d).value;
            && request.fundingCoinId in after && after[request.fundingCoinId].row == row
            && after[request.fundingCoinId].reservations ==
               db[request.fundingCoinId].reservations[request.entry.reservationNonce := r]
            && after == db[request.fundingCoinId := after[request.fundingCoinId]]
  {
  }

  /** A fresh preparation writes its own channel only, from the decision it took on the gated row. */
  lemma FreshIsWritten(c: Crypto, db: Database, request: ReservationRequest, gate: Gate, key: SecretKey, now: u64)
    requires DatabaseOk(c, db)
    requires Prepare(c, db, request, gate, key, now).Success? && Prepare(c, db, request, gate, key, now).value.Fresh?
    ensures var coin, after := request.fundingCoinId, Prepare(c, db, request, gate, key, now).value.db;
            && coin in db && coin in after && after == db[coin := after[coin]]
            && request.entry.reservationNonce !in db[coin].reservations
            && EvaluateGate(db[coin].row, gate).Success?
            && (var (gated, verdict) := EvaluateGate(db[coin].row, gate).value;
                var authorization := AuthorizationDigest(c, db[coin].row.terms, coin, request.entry);
                var d := Decide(c, db, request, gated, authorization, verdict);
                d.Success? && Wrote(c, db[coin], after[coin], request, gate, d.value))
  {
    FreshPreparation(c, db, request, gate, key, now);
    PreparationReads(c, db, request, gate, key, now);
    var (fingerprint, row, authorization) := ReadForReservation(c, db, request, key, now).value;
    FreshWrites(c, db, request, gate, fingerprint, row, authorization);
    var (gated, verdict) := EvaluateGate(row, gate).value;
    var d := Decide(c, db, request, gated, authorization, verdict).value;
    WritesRow(db, request, gated,
              PreparedRow(request, fingerprint, authorization, gated, verdict.observedPeakHeight, d), d);
  }

  // ---------------------------------------------------------------- every event

  /** What an event does to a channel that is there: the first transaction of a reservation, or nothing recorded. */
  ghost predicate Records(c: Crypto, w: World, event: Event, coin: Bytes32)
    requires coin in w.db
  {
    var after := Apply(c, w, event).db;
    && coin in after
    && (if Prepares(c, w, event, coin) then
          var task := w.tasks[event.id];
          && Prepare(c, w.db, task.request, task.gate, task.key, task.now) == Success(Fresh(after))
        else KeepsRecord(w.db[coin], after[coin]))
  }

  lemma BeginRecords(c: Crypto, w: World, event: Event, coin: Bytes32)
    requires DatabaseOk(c, w.db) && coin in w.db
    requires event.Advances? && event.id in w.tasks && w.tasks[event.id].Begin?
    ensures Records(c, w, event, coin)
  {
    var task := w.tasks[event.id];
    var prepared := Prepare(c, w.db, task.request, task.gate, task.key, task.now);
    BeginOutcome(c, w.db, task.request, task.gate, task.key, task.now, task.point);
    if prepared.Success? && prepared.value.Fresh? {
      FreshIsWritten(c, w.db, task.request, task.gate, task.key, task.now);
    }
  }

  lemma FinalizedKeepsRecord(ch: Channel, nonce: Bytes32, r: Reservation, signed: SignedReservationResult,
                             work: Option<(OfficialState, RecoveryPackage)>)
    requires nonce in ch.reservations
    ensures KeepsRecord(ch, HubCommit.Finalized(ch, nonce, r, signed, work))
  {
    var keys := HubCommit.Finalized(ch, nonce, r, signed, work).reservations.Keys;
    assert keys == ch.reservations.Keys + {nonce};
  }

  /** A second transaction leaves the database, or finalizes one row of it. */
  lemma CommitFinalizes(c: Crypto, db: Database, job: Job, row: ChannelRow, r: Reservation,
                        signed: SignedReservationResult, work: Option<(OfficialState, RecoveryPackage)>)
    requires TaskOk(c, db, ToCommit(job, row, r, signed, work)) && ChannelOk(c, job.coin, db[job.coin])
    ensures job.nonce in db[job.coin].reservations
    ensures AdvanceCommit(c, db, job, row, r, signed, work).db
            in {db, db[job.coin := HubCommit.Finalized(db[job.coin], job.nonce, r, signed, work)]}
  {
    HubCommit.CommitIs(c, db, job.coin, job.nonce, r, signed, work);
    HubAvailability.CommitDatabase(c, db, job, row, r, signed, work,
                                   db[job.coin := HubCommit.Finalized(db[job.coin], job.nonce, r, signed, work)]);
  }

  lemma OneChannelKeepsRecord(db: Database, after: Database, coin: Bytes32, changed: Bytes32, ch: Channel)
    requires coin in db && changed in db && after in {db, db[changed := ch]} && KeepsRecord(db[changed], ch)
    ensures coin in after && KeepsRecord(db[coin], after[coin])
  {
  }

  lemma CommitRecords(c: Crypto, db: Database, job: Job, row: ChannelRow, r: Reservation,
                      signed: SignedReservationResult, work: Option<(OfficialState, RecoveryPackage)>, coin: Bytes32)
    requires TaskOk(c, db, ToCommit(job, row, r, signed, work)) && ChannelOk(c, job.coin, db[job.coin]) && coin in db
    ensures var after := AdvanceCommit(c, db, job, row, r, signed, work).db;
            coin in after && KeepsRecord(db[coin], after[coin])
  {
    CommitFinalizes(c, db, job, row, r, signed, work);
    FinalizedKeepsRecord(db[job.coin], job.nonce, r, signed, work);
    OneChannelKeepsRecord(db, AdvanceCommit(c, db, job, row, r, signed, work).db, coin, job.coin,
                          HubCommit.Finalized(db[job.coin], job.nonce, r, signed, work));
  }

  lemma StepRecords(c: Crypto, w: World, event: Event, coin: Bytes32)
    requires WorldOk(c, w) && coin in w.db && event.Advances? && event.id in w.tasks && !w.tasks[event.id].Done?
    ensures Records(c, w, event, coin)
  {
    var task := w.tasks[event.id];
    assert TaskOk(c, w.db, task);
    if task.Begin? {
      BeginRecords(c, w, event, coin);
    } else if task.ToCommit? {
      assert ChannelOk(c, task.job.coin, w.db[task.job.coin]);
      CommitRecords(c, w.db, task.job, task.row, task.r, task.signed, task.work, coin);
    } else {
      ReadingOk(c, w.db, task);
    }
  }

  /** Only the first transaction of a reservation records a peak or adds a row, and only on its own channel. */
  lemma EventRecords(c: Crypto, w: World, event: Event, coin: Bytes32)
    requires WorldOk(c, w) && coin in w.db
    ensures Records(c, w, event, coin)
  {
    match event
    case Registers(reg, now, confirmationBlocks, state, peak) =>
      if Register(c, w.db, reg, now, confirmationBlocks, state, peak).Success? {
        RegisterInserts(c, w.db, reg, now, confirmationBlocks, state, peak);
      }
    case Advances(id) =>
      if id in w.tasks && !w.tasks[id].Done? {
        StepRecords(c, w, event, coin);
      }
    case _ =>
  }

  /** Only a registration adds a channel: the one it registers, with nothing reserved. */
  lemma NewChannelIsRegistered(c: Crypto, w: World, event: Event, coin: Bytes32)
    requires WorldOk(c, w) && coin !in w.db && coin in Apply(c, w, event).db
    ensures event.Registers? && event.reg.fundingCoinId == coin
    ensures ValidateRegistration(c, event.reg).Success?
    ensures Apply(c, w, event).db[coin] ==
            Channel(NewRow(c, event.reg, ValidateRegistration(c, event.reg).value, event.confirmationBlocks,
                           event.state, event.peak), map[], map[], [], map[])
  {
    match event
    case Registers(reg, now, confirmationBlocks, state, peak) =>
      RegisterInserts(c, w.db, reg, now, confirmationBlocks, state, peak);
    case Advances(id) => StepAddsNoChannel(c, w, event);
    case _ =>
  }

  lemma StepAddsNoChannel(c: Crypto, w: World, event: Event)
    requires WorldOk(c, w) && event.Advances?
    ensures Apply(c, w, event).db.Keys <= w.db.Keys
  {
    if event.id in w.tasks && !w.tasks[event.id].Done? {
      var task := w.tasks[event.id];
      assert TaskOk(c, w.db, task);
      if task.Begin? {
        var prepared := Prepare(c, w.db, task.request, task.gate, task.key, task.now);
        BeginOutcome(c, w.db, task.request, task.gate, task.key, task.now, task.point);
        if prepared.Success? && prepared.value.Fresh? {
          FreshIsWritten(c, w.db, task.request, task.gate, task.key, task.now);
        }
      } else if task.ToCommit? {
        CommitAddsNoChannel(c, w.db, task.job, task.row, task.r, task.signed, task.work);
      } else {
        ReadingOk(c, w.db, task);
      }
    }
  }

  lemma CommitAddsNoChannel(c: Crypto, db: Database, job: Job, row: ChannelRow, r: Reservation,
                            signed: SignedReservationResult, work: Option<(OfficialState, RecoveryPackage)>)
    requires DatabaseOk(c, db) && TaskOk(c, db, ToCommit(job, row, r, signed, work))
    ensures AdvanceCommit(c, db, job, row, r, signed, work).db.Keys <= db.Keys
  {
    assert ChannelOk(c, job.coin, db[job.coin]);
    CommitFinalizes(c, db, job, row, r, signed, work);
  }
}
