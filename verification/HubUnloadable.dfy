/** What becomes of a channel once its recorded heights no longer bind: it never loads again, and a row prepared on it
    blocks recovery for ever. */
module HubUnloadable {
  import opened ByteStrings
  import opened Protocol
  import opened Types
  import opened HubRecords
  import opened HubGate
  import opened HubSteps
  import opened HubInvariant
  import opened HubReads
  import opened HubProgress
  import opened HubMachine
  import opened HubRuns
  import opened HubTheorems
  import opened HubClosure
  import opened HubRejections
  import opened HubAvailability
  import HubCommit

  predicate Unloadable(db: Database, coin: Bytes32) {
    coin in db && !HeightsBind(db[coin].row)
  }

  // ---------------------------------------------------------------- no step moves its heights

  /** The channel keeps its terms and heights, and every row but the one being committed. */
  ghost predicate KeptBut(before: Channel, after: Channel, committed: set<Bytes32>) {
    && SameChances(before.row, after.row)
    && (forall m :: m in before.reservations && m !in committed ==>
          m in after.reservations && after.reservations[m] == before.reservations[m])
  }

  /** The rows of a channel that a task's next step may finalize. */
  function CommitsOn(task: Task, coin: Bytes32): set<Bytes32> {
    if task.ToCommit? && task.job.coin == coin then {task.job.nonce} else {}
  }

  lemma PreparationLeaves(c: Crypto, db: Database, request: ReservationRequest, gate: Gate, key: SecretKey, now: u64,
                          coin: Bytes32)
    requires DatabaseOk(c, db) && Unloadable(db, coin)
    requires Prepare(c, db, request, gate, key, now).Success? && Prepare(c, db, request, gate, key, now).value.Fresh?
    ensures coin in Prepare(c, db, request, gate, key, now).value.db
    ensures Prepare(c, db, request, gate, key, now).value.db[coin] == db[coin]
  {
    FreshPreparation(c, db, request, gate, key, now);
    PreparationReads(c, db, request, gate, key, now);
    var (fingerprint, row, authorization) := ReadForReservation(c, db, request, key, now).value;
    assert request.fundingCoinId != coin;
    FreshWrites(c, db, request, gate, fingerprint, row, authorization);
    var (after, gated) := EvaluateGate(row, gate).value;
    var d := Decide(c, db, request, after, authorization, gated).value;
    WrittenRowKept(db, request, after,
                   PreparedRow(request, fingerprint, authorization, after, gated.observedPeakHeight, d), d);
  }

  lemma BeginLeaves(c: Crypto, db: Database, request: ReservationRequest, gate: Gate, key: SecretKey, now: u64,
                    point: FailurePoint, coin: Bytes32)
    requires DatabaseOk(c, db) && Unloadable(db, coin)
    ensures var after := AdvanceBegin(c, db, request, gate, key, now, point).db;
            coin in after && after[coin] == db[coin]
  {
    BeginOutcome(c, db, request, gate, key, now, point);
    var prepared := Prepare(c, db, request, gate, key, now);
    if prepared.Success? && prepared.value.Fresh? {
      PreparationLeaves(c, db, request, gate, key, now, coin);
    }
  }

  lemma FinalizedKeeps(ch: Channel, nonce: Bytes32, r: Reservation, signed: SignedReservationResult,
                       work: Option<(OfficialState, RecoveryPackage)>)
    ensures KeptBut(ch, HubCommit.Finalized(ch, nonce, r, signed, work), {nonce})
  {
  }

  lemma OneChannelLeaves(db: Database, after: Database, coin: Bytes32, changed: Bytes32, ch: Channel, nonce: Bytes32)
    requires coin in db && changed in db && (after == db || after == db[changed := ch])
    requires KeptBut(db[changed], ch, {nonce})
    ensures coin in after && KeptBut(db[coin], after[coin], if changed == coin then {nonce} else {})
  {
  }

  lemma CommitLeaves(c: Crypto, db: Database, job: Job, row: ChannelRow, r: Reservation,
                     signed: SignedReservationResult, work: Option<(OfficialState, RecoveryPackage)>, coin: Bytes32)
    requires TaskOk(c, db, ToCommit(job, row, r, signed, work)) && ChannelOk(c, job.coin, db[job.coin]) && coin in db
    ensures var after := AdvanceCommit(c, db, job, row, r, signed, work).db;
            coin in after && KeptBut(db[coin], after[coin], if job.coin == coin then {job.nonce} else {})
  {
    var finalized := db[job.coin := HubCommit.Finalized(db[job.coin], job.nonce, r, signed, work)];
    HubCommit.CommitIs(c, db, job.coin, job.nonce, r, signed, work);
    CommitDatabase(c, db, job, row, r, signed, work, finalized);
    FinalizedKeeps(db[job.coin], job.nonce, r, signed, work);
    OneChannelLeaves(db, AdvanceCommit(c, db, job, row, r, signed, work).db, coin, job.coin, finalized[job.coin],
                     job.nonce);
  }

  lemma StepLeaves(c: Crypto, db: Database, task: Task, coin: Bytes32)
    requires DatabaseOk(c, db) && TaskOk(c, db, task) && Unloadable(db, coin)
    ensures var after := Advance(c, db, task).db;
            coin in after && KeptBut(db[coin], after[coin], CommitsOn(task, coin))
  {
    if task.Begin? {
      BeginLeaves(c, db, task.request, task.gate, task.key, task.now, task.point, coin);
    } else if task.ToCommit? {
      assert ChannelOk(c, task.job.coin, db[task.job.coin]);
      CommitLeaves(c, db, task.job, task.row, task.r, task.signed, task.work, coin);
    } else {
      ReadingOk(c, db, task);
    }
  }

  /** The rows of a channel that an event may finalize. */
  function EventCommits(w: World, event: Event, coin: Bytes32): set<Bytes32> {
    if event.Advances? && event.id in w.tasks then CommitsOn(w.tasks[event.id], coin) else {}
  }

  lemma ApplyLeaves(c: Crypto, w: World, event: Event, coin: Bytes32)
    requires WorldOk(c, w) && Unloadable(w.db, coin)
    ensures var after := Apply(c, w, event).db;
            coin in after && KeptBut(w.db[coin], after[coin], EventCommits(w, event, coin))
  {
    match event
    case Registers(reg, now, confirmationBlocks, state, peak) =>
      if Register(c, w.db, reg, now, confirmationBlocks, state, peak).Success? {
        RegisterInserts(c, w.db, reg, now, confirmationBlocks, state, peak);
      }
    case Advances(id) =>
      if id in w.tasks && !w.tasks[id].Done? {
        assert TaskOk(c, w.db, w.tasks[id]);
        StepLeaves(c, w.db, w.tasks[id], coin);
      }
    case _ =>
  }

  lemma RunGoesOn(c: Crypto, events: seq<Event>, more: seq<Event>)
    requires more != []
    ensures Run(c, events + more) == Apply(c, Run(c, events + more[..|more| - 1]), more[|more| - 1])
  {
    assert (events + more)[..|events + more| - 1] == events + more[..|more| - 1];
  }

  /** Such a channel never loads again, whatever is registered, reserved, recovered or crashed afterwards. */
  lemma {:induction false} UnloadableForEver(c: Crypto, events: seq<Event>, more: seq<Event>, coin: Bytes32)
    requires Unloadable(Run(c, events).db, coin)
    ensures Unloadable(Run(c, events + more).db, coin)
    ensures LoadChannel(c, Run(c, events + more).db, coin).Failure?
  {
    if more == [] {
      assert events + more == events;
    } else {
      var front := more[..|more| - 1];
      UnloadableForEver(c, events, front, coin);
      RunOk(c, events + front);
      ApplyLeaves(c, Run(c, events + front), more[|more| - 1], coin);
      RunGoesOn(c, events, more);
    }
    UnloadableFails(c, events + more, coin);
  }

  lemma UnloadableFails(c: Crypto, events: seq<Event>, coin: Bytes32)
    requires Unloadable(Run(c, events).db, coin)
    ensures LoadChannel(c, Run(c, events).db, coin).Failure?
  {
    RunOk(c, events);
    assert ChannelOk(c, coin, Run(c, events).db[coin]);
    ChannelLoadsIff(c, Run(c, events).db, coin);
  }

  // ---------------------------------------------------------------- a prepared row on such a channel

  /** The call is finalizing this row and has already read its channel. */
  predicate PastFind(task: Task, row: PendingRow) {
    && (task.ToSignResult? || task.ToSignState? || task.ToPackage? || task.ToCommit?)
    && (task.job.coin, task.job.nonce) == row
  }

  /** A row prepared on a channel that does not load, which no call has read in time. */
  ghost predicate Doomed(w: World, row: PendingRow) {
    && IsOpen(w.db, row) && Unloadable(w.db, row.0)
    && (forall id :: id in w.tasks ==> !PastFind(w.tasks[id], row))
  }

  lemma FindIsTooLate(c: Crypto, db: Database, job: Job)
    requires DatabaseOk(c, db) && Unloadable(db, job.coin)
    ensures AdvanceFindChannel(c, db, job).task.Done?
  {
    assert ChannelOk(c, job.coin, db[job.coin]);
    ChannelLoadsIff(c, db, job.coin);
  }

  lemma SigningKeepsJob(c: Crypto, db: Database, job: Job, row: ChannelRow, other: PendingRow)
    requires (job.coin, job.nonce) != other
    ensures !PastFind(AdvanceSignResult(c, db, job, row).task, other)
  {
  }

  lemma StateKeepsJob(c: Crypto, db: Database, job: Job, row: ChannelRow, r: Reservation,
                      signed: SignedReservationResult, other: PendingRow)
    requires (job.coin, job.nonce) != other
    ensures !PastFind(AdvanceSignState(c, db, job, row, r, signed).task, other)
  {
  }

  lemma PackageKeepsJob(c: Crypto, db: Database, job: Job, row: ChannelRow, r: Reservation,
                        signed: SignedReservationResult, state: OfficialState, other: PendingRow)
    requires (job.coin, job.nonce) != other
    ensures !PastFind(AdvancePackage(c, db, job, row, r, signed, state).task, other)
  {
  }

  lemma CommitEndsJob(c: Crypto, db: Database, job: Job, row: ChannelRow, r: Reservation,
                      signed: SignedReservationResult, work: Option<(OfficialState, RecoveryPackage)>,
                      other: PendingRow)
    ensures !PastFind(AdvanceCommit(c, db, job, row, r, signed, work).task, other)
  {
  }

  lemma ReadsEnd(c: Crypto, db: Database, task: Task, other: PendingRow)
    requires task.ToReadChannel? || task.ToReadAnswer? || task.ToReadPackage? || task.Done?
    ensures !PastFind(Advance(c, db, task).task, other)
  {
  }

  /** A call goes on with the job it has. */
  lemma JobsStay(c: Crypto, db: Database, task: Task, other: PendingRow)
    requires !PastFind(task, other) && !task.Begin? && !task.ToFindChannel?
    ensures !PastFind(Advance(c, db, task).task, other)
  {
    match task
    case ToSignResult(job, row) => SigningKeepsJob(c, db, job, row, other);
    case ToSignState(job, row, r, signed) => StateKeepsJob(c, db, job, row, r, signed, other);
    case ToPackage(job, row, r, signed, state) => PackageKeepsJob(c, db, job, row, r, signed, state, other);
    case ToCommit(job, row, r, signed, work) => CommitEndsJob(c, db, job, row, r, signed, work, other);
    case _ => ReadsEnd(c, db, task, other);
  }

  lemma StepStaysBefore(c: Crypto, db: Database, task: Task, row: PendingRow)
    requires DatabaseOk(c, db) && Unloadable(db, row.0) && !PastFind(task, row)
    ensures !PastFind(Advance(c, db, task).task, row)
  {
    if task.Begin? {
      BeginOutcome(c, db, task.request, task.gate, task.key, task.now, task.point);
    } else if task.ToFindChannel? {
      if task.job.coin == row.0 {
        FindIsTooLate(c, db, task.job);
      }
    } else {
      JobsStay(c, db, task, row);
    }
  }

  lemma TasksStayBefore(c: Crypto, w: World, event: Event, row: PendingRow, id: nat)
    requires WorldOk(c, w) && Doomed(w, row) && id in Apply(c, w, event).tasks
    ensures !PastFind(Apply(c, w, event).tasks[id], row)
  {
    if event.Advances? && event.id == id && id in w.tasks && !w.tasks[id].Done? {
      StepStaysBefore(c, w.db, w.tasks[id], row);
    } else if event.Starts? && event.id == id {
      assert Apply(c, w, event).tasks[id] == FirstTask(event.call);
    } else {
      assert id in w.tasks && Apply(c, w, event).tasks[id] == w.tasks[id];
    }
  }

  lemma ApplyDooms(c: Crypto, w: World, event: Event, row: PendingRow)
    requires WorldOk(c, w) && Doomed(w, row)
    ensures Doomed(Apply(c, w, event), row)
  {
    var after := Apply(c, w, event);
    ApplyLeaves(c, w, event, row.0);
    assert row.1 !in EventCommits(w, event, row.0);
    forall id | id in after.tasks ensures !PastFind(after.tasks[id], row) {
      TasksStayBefore(c, w, event, row, id);
    }
  }

  lemma {:induction false} DoomedForEver(c: Crypto, events: seq<Event>, more: seq<Event>, row: PendingRow)
    requires Doomed(Run(c, events), row)
    ensures Doomed(Run(c, events + more), row)
  {
    if more == [] {
      assert events + more == events;
    } else {
      var front := more[..|more| - 1];
      DoomedForEver(c, events, front, row);
      RunOk(c, events + front);
      ApplyDooms(c, Run(c, events + front), more[|more| - 1], row);
      RunGoesOn(c, events, more);
    }
  }

  /** From then on every recovery of the store fails, with whatever key, however the run goes on. */
  lemma DoomedBlocksRecovery(c: Crypto, events: seq<Event>, more: seq<Event>, pending: seq<PendingRow>, key: SecretKey,
                             row: PendingRow)
    requires Doomed(Run(c, events), row) && SignsCorrectly(c) && Lists(Run(c, events + more).db, pending)
    ensures RecoverAll(c, Run(c, events + more).db, pending, key).outcomes.Failure?
  {
    DoomedForEver(c, events, more, row);
    RecoverySucceedsIff(c, events + more, pending, key);
    assert IsOpen(Run(c, events + more).db, row) && !CanRecover(c, Run(c, events + more).db, key, row);
  }

  lemma OpenIsUnanswered(db: Database, row: PendingRow, a: Answer)
    requires IsOpen(db, row) && AnswerOk(db, a.coin, a.nonce, a.outcome)
    ensures (a.coin, a.nonce) != row
  {
  }

  /** And no call is ever answered for its nonce. */
  lemma DoomedIsUnanswered(c: Crypto, events: seq<Event>, more: seq<Event>, row: PendingRow, i: nat)
    requires Doomed(Run(c, events), row) && i < |Run(c, events + more).answers|
    ensures (Run(c, events + more).answers[i].coin, Run(c, events + more).answers[i].nonce) != row
  {
    DoomedForEver(c, events, more, row);
    RunOk(c, events + more);
    OpenIsUnanswered(Run(c, events + more).db, row, Run(c, events + more).answers[i]);
  }

  // ---------------------------------------------------------------- the shortest run to one

  /** Both nodes, synced on the channel's network, show the funding coin spent, born at this height. */
  function SpentView(c: Crypto, reg: ChannelRegistration, birth: u64, spent: u64, peak: Peak): ChainView
    requires ValidateRegistration(c, reg).Success?
  {
    Success(ChainSnapshot(reg.terms.networkId, true, Some(peak),
                          Spent(birth, spent, ValidateRegistration(c, reg).value.0, reg.terms.fundingAmount)))
  }

  function SpentGate(c: Crypto, reg: ChannelRegistration, birth: u64, spent: u64, peak: Peak): Gate
    requires ValidateRegistration(c, reg).Success?
  {
    Chain(SpentView(c, reg, birth, spent, peak), SpentView(c, reg, birth, spent, peak))
  }

  /** A registration, a reservation while the coin is seen spent at another birth height, and its first transaction. */
  function SpendEvents(c: Crypto, reg: ChannelRegistration, request: ReservationRequest, key: SecretKey, birth: u64,
                       spent: u64, peak: Peak): seq<Event>
    requires ValidateRegistration(c, reg).Success?
  {
    [Registers(reg, 0, 0, Active, None),
     Starts(0, Reserve(request, SpentGate(c, reg, birth, spent, peak), key, 0, NoFailure)),
     Advances(0)]
  }

  lemma SpendMovesOnlyTheBirth(c: Crypto, reg: ChannelRegistration, birth: u64, spent: u64, peak: Peak)
    requires ValidateRegistration(c, reg).Success?
    requires birth < reg.fundingBirthHeight && peak.height <= MAX_PROTOCOL_U64
    ensures var gate := SpentGate(c, reg, birth, spent, peak);
            && EvaluateGate(FirstRow(c, reg), gate).Success?
            && var (after, gated) := EvaluateGate(FirstRow(c, reg), gate).value;
               && gated == Gated(peak.height, Some(ChannelClosing))
               && after.acceptanceCutoffHeight <= MAX_PROTOCOL_U64 && after.scheduledCloseHeight <= MAX_PROTOCOL_U64
               && !HeightsBind(after)
  {
    var row, gate := FirstRow(c, reg), SpentGate(c, reg, birth, spent, peak);
    FirstRowBinds(c, reg);
    GateDispatch(row, gate);
    assert SeesSpend(row, gate);
    SpendMovesHeights(row, birth, peak);
  }

  /** A blocked preparation stores the moved row and a prepared rejection. */
  lemma BlockedPreparation(c: Crypto, db: Database, request: ReservationRequest, gate: Gate, fingerprint: Bytes32,
                           row: ChannelRow, authorization: Bytes32, after: ChannelRow, gated: Gated)
    requires request.fundingCoinId in db && EvaluateGate(row, gate) == Success((after, gated))
    requires gated.blocking == Some(ChannelClosing)
    requires gated.observedPeakHeight <= MAX_PROTOCOL_U64
             && after.acceptanceCutoffHeight <= MAX_PROTOCOL_U64 && after.scheduledCloseHeight <= MAX_PROTOCOL_U64
    ensures PrepareFresh(c, db, request, gate, fingerprint, row, authorization).Success?
    ensures var prepared := PrepareFresh(c, db, request, gate, fingerprint, row, authorization).value;
            && IsOpen(prepared, (request.fundingCoinId, request.entry.reservationNonce))
            && prepared[request.fundingCoinId].row == after
  {
    var d := Decide(c, db, request, after, authorization, gated).value;
    var r := PreparedRow(request, fingerprint, authorization, after, gated.observedPeakHeight, d);
    RejectionWrites(c, db, request, gate, fingerprint, row, authorization, after, gated, d);
    FreshWrites(c, db, request, gate, fingerprint, row, authorization);
    WrittenRowKept(db, request, after, r, d);
    WrittenRowIs(db, request, after, r, d);
  }

  lemma FreshOnNewChannel(c: Crypto, reg: ChannelRegistration, request: ReservationRequest, gate: Gate, key: SecretKey)
    requires ValidateRegistration(c, reg).Success? && request.fundingCoinId == reg.fundingCoinId
    requires c.publicKey(key) == reg.terms.hubStatePublicKeyA
    requires ValidateEntry(c, request.entry).Pass? && ParseSignature(c, request.signature).Pass?
    ensures var db: Database := map[reg.fundingCoinId := Channel(FirstRow(c, reg), map[], map[], [], map[])];
            var fingerprint := FingerprintDigest(c, request.entry, request.signature);
            var authorization := AuthorizationDigest(c, reg.terms, reg.fundingCoinId, request.entry);
            var prepared := PrepareFresh(c, db, request, gate, fingerprint, FirstRow(c, reg), authorization);
            prepared.Success? ==> Prepare(c, db, request, gate, key, 0) == Success(Fresh(prepared.value))
  {
    var coin, row := reg.fundingCoinId, FirstRow(c, reg);
    var db: Database := map[coin := Channel(row, map[], map[], [], map[])];
    FirstRegistration(c, reg);
    FirstRowBinds(c, reg);
    FirstChannelOk(c, reg);
    ChannelLoadsIff(c, db, coin);
    ReservationLoads(c, db, coin, request.entry.reservationNonce);
    TermsFacts(c, row.terms);
  }

  /** Any registrable channel, then one reservation while its coin is seen spent at a lower birth height than the one
      registered: the row is prepared, the channel does not load, and recovery is blocked for ever. */
  lemma SpendExample(c: Crypto, reg: ChannelRegistration, request: ReservationRequest, key: SecretKey, birth: u64,
                     spent: u64, peak: Peak)
    requires ValidateRegistration(c, reg).Success? && request.fundingCoinId == reg.fundingCoinId
    requires c.publicKey(key) == reg.terms.hubStatePublicKeyA
    requires ValidateEntry(c, request.entry).Pass? && ParseSignature(c, request.signature).Pass?
    requires birth < reg.fundingBirthHeight && peak.height <= MAX_PROTOCOL_U64
    ensures Doomed(Run(c, SpendEvents(c, reg, request, key, birth, spent, peak)),
                   (reg.fundingCoinId, request.entry.reservationNonce))
  {
    var row, gate := FirstRow(c, reg), SpentGate(c, reg, birth, spent, peak);
    var db: Database := map[reg.fundingCoinId := Channel(row, map[], map[], [], map[])];
    var fingerprint := FingerprintDigest(c, request.entry, request.signature);
    var authorization := AuthorizationDigest(c, reg.terms, reg.fundingCoinId, request.entry);
    SpendMovesOnlyTheBirth(c, reg, birth, spent, peak);
    var (after, gated) := EvaluateGate(row, gate).value;
    BlockedPreparation(c, db, request, gate, fingerprint, row, authorization, after, gated);
    FreshOnNewChannel(c, reg, request, gate, key);
    SpendRuns(c, reg, request, key, birth, spent, peak,
              PrepareFresh(c, db, request, gate, fingerprint, row, authorization).value);
  }

  lemma SpendRuns(c: Crypto, reg: ChannelRegistration, request: ReservationRequest, key: SecretKey, birth: u64,
                  spent: u64, peak: Peak, prepared: Database)
    requires ValidateRegistration(c, reg).Success? && request.fundingCoinId == reg.fundingCoinId
    requires var db: Database := map[reg.fundingCoinId := Channel(FirstRow(c, reg), map[], map[], [], map[])];
             Prepare(c, db, request, SpentGate(c, reg, birth, spent, peak), key, 0) == Success(Fresh(prepared))
    requires IsOpen(prepared, (reg.fundingCoinId, request.entry.reservationNonce))
    requires Unloadable(prepared, reg.fundingCoinId)
    ensures Doomed(Run(c, SpendEvents(c, reg, request, key, birth, spent, peak)),
                   (reg.fundingCoinId, request.entry.reservationNonce))
  {
    var gate := SpentGate(c, reg, birth, spent, peak);
    var events := SpendEvents(c, reg, request, key, birth, spent, peak);
    var db: Database := map[reg.fundingCoinId := Channel(FirstRow(c, reg), map[], map[], [], map[])];
    RunOfThree(c, events[0], events[1], events[2]);
    StartedWorld(c, reg, request, gate, key);
    BeginCommits(c, db, request, gate, key, prepared);
    BeginOutcome(c, db, request, gate, key, 0, NoFailure);
    PreparingStep(c, Started(c, reg, request, gate, key), request, gate, key);
  }
}
