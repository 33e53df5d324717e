/** The HUB as a state machine: any number of calls, each stopped between any two of its database accesses. */
module HubMachine {
  import opened ByteStrings
  import opened Protocol
  import opened Types
  import opened HubRecords
  import opened HubGate
  import opened HubSteps

  // ---------------------------------------------------------------- one call

  datatype Job = Job(coin: Bytes32, nonce: Bytes32, key: SecretKey, point: FailurePoint)

  /** Where a call has got to, with what it has read so far. */
  datatype Task =
    | Begin(request: ReservationRequest, gate: Gate, key: SecretKey, now: u64, point: FailurePoint)
    | ToFindChannel(job: Job)
    | ToSignResult(job: Job, row: ChannelRow)
    | ToSignState(job: Job, row: ChannelRow, r: Reservation, signed: SignedReservationResult)
    | ToPackage(job: Job, row: ChannelRow, r: Reservation, signed: SignedReservationResult, state: OfficialState)
    | ToCommit(job: Job, row: ChannelRow, r: Reservation, signed: SignedReservationResult,
               work: Option<(OfficialState, RecoveryPackage)>)
    | ToReadChannel(coin: Bytes32, nonce: Bytes32)
    | ToReadAnswer(coin: Bytes32, nonce: Bytes32, row: ChannelRow)
    | ToReadPackage(coin: Bytes32, nonce: Bytes32, signed: SignedReservationResult, sequence: u64)
    | Done(coin: Bytes32, nonce: Bytes32, result: Result<ReservationOutcome, HubError>)

  /** The database, what was signed, and where the call is, after one step. */
  datatype Step = Step(db: Database, signings: seq<Signing>, task: Task)

  function Stop(db: Database, signings: seq<Signing>, coin: Bytes32, nonce: Bytes32, error: HubError): Step {
    Step(db, signings, Done(coin, nonce, Failure(error)))
  }

  function AdvanceBegin(c: Crypto, db: Database, request: ReservationRequest, gate: Gate, key: SecretKey, now: u64,
                        point: FailurePoint): Step {
    var coin, nonce := request.fundingCoinId, request.entry.reservationNonce;
    var job := Job(coin, nonce, key, point);
    match Prepare(c, db, request, gate, key, now)
    case Failure(error) => Stop(db, [], coin, nonce, error)
    case Success(Existing(stage)) =>
        Step(db, [], if stage.Signed? then ToReadChannel(coin, nonce) else ToFindChannel(job))
    case Success(Fresh(after)) =>
      if point.AfterPreparationCommit? then Stop(after, [], coin, nonce, InjectedFailure(point))
      else Step(after, [], ToFindChannel(job))
  }

  function AdvanceFindChannel(c: Crypto, db: Database, job: Job): Step {
    match FindChannel(c, db, job.coin, job.key)
    case Failure(error) => Stop(db, [], job.coin, job.nonce, error)
    case Success(row) => Step(db, [], ToSignResult(job, row))
  }

  function AdvanceSignResult(c: Crypto, db: Database, job: Job, row: ChannelRow): Step {
    match FindReservation(c, db, row.terms, job.coin, job.nonce)
    case Failure(error) => Stop(db, [], job.coin, job.nonce, error)
    case Success(r) =>
      if r.stage.Signed? then Step(db, [], ToReadChannel(job.coin, job.nonce))
      else
        var result := ResultFrom(r, row.terms, job.coin, job.nonce);
        if ValidateResult(result).Fail? then
          Stop(db, [], job.coin, job.nonce, ProtocolFailure(ValidateResult(result).error))
        else
          var signing := ResultSigned(job.key, result);
          var signed := SignedReservationResult(result, SignatureOf(c, signing));
          var verified := VerifySignedResult(c, row.terms, signed);
          if verified.Fail? then Stop(db, [signing], job.coin, job.nonce, ProtocolFailure(verified.error))
          else Step(db, [signing], if IsSignedTarget(r) then ToSignState(job, row, r, signed)
                                   else ToCommit(job, row, r, signed, None))
  }

  function AdvanceSignState(c: Crypto, db: Database, job: Job, row: ChannelRow, r: Reservation,
                            signed: SignedReservationResult): Step {
    if r.targetStateSequence.None? then Stop(db, [], job.coin, job.nonce, Corrupt("signed reservation sequence")) else
    match LoadIntentCheckpoint(db, job.coin, r.targetStateSequence.value)
    case Failure(error) => Stop(db, [], job.coin, job.nonce, error)
    case Success(k) =>
      var valid := ValidateCheckpoint(c, row.terms, k);
      if valid.Fail? then Stop(db, [], job.coin, job.nonce, ProtocolFailure(valid.error))
      else
        var signing := StateSigned(job.key, row.terms, k);
        var state := OfficialState(k, SignatureOf(c, signing));
        var verified := VerifyOfficialState(c, row.terms, state);
        if verified.Fail? then Stop(db, [signing], job.coin, job.nonce, ProtocolFailure(verified.error))
        else Step(db, [signing], ToPackage(job, row, r, signed, state))
  }

  function AdvancePackage(c: Crypto, db: Database, job: Job, row: ChannelRow, r: Reservation,
                          signed: SignedReservationResult, state: OfficialState): Step {
    match MakePackage(c, db, row, job.coin, r, state)
    case Failure(error) => Stop(db, [], job.coin, job.nonce, error)
    case Success(package) => Step(db, [], ToCommit(job, row, r, signed, Some((state, package))))
  }

  function AdvanceCommit(c: Crypto, db: Database, job: Job, row: ChannelRow, r: Reservation,
                         signed: SignedReservationResult, work: Option<(OfficialState, RecoveryPackage)>): Step {
    if job.point.AfterStateSignature? then Stop(db, [], job.coin, job.nonce, InjectedFailure(job.point)) else
    match Commit(c, db, job.coin, job.nonce, row.terms, r, signed, work)
    case Failure(error) => Stop(db, [], job.coin, job.nonce, error)
    case Success(None) => Step(db, [], ToReadChannel(job.coin, job.nonce))
    case Success(Some(after)) =>
      var outcome := ReservationOutcome(signed, if work.Some? then Some(work.value.1) else None);
      Step(after, [], Done(job.coin, job.nonce, Success(outcome)))
  }

  function AdvanceReadChannel(c: Crypto, db: Database, coin: Bytes32, nonce: Bytes32): Step {
    match LoadChannel(c, db, coin)
    case Failure(error) => Stop(db, [], coin, nonce, error)
    case Success(row) => Step(db, [], ToReadAnswer(coin, nonce, row))
  }

  function AdvanceReadAnswer(c: Crypto, db: Database, coin: Bytes32, nonce: Bytes32, row: ChannelRow): Step {
    match ReadAnswer(c, db, row.terms, coin, nonce)
    case Failure(error) => Stop(db, [], coin, nonce, error)
    case Success((signed, None)) => Step(db, [], Done(coin, nonce, Success(ReservationOutcome(signed, None))))
    case Success((signed, Some(sequence))) => Step(db, [], ToReadPackage(coin, nonce, signed, sequence))
  }

  function AdvanceReadPackage(c: Crypto, db: Database, coin: Bytes32, nonce: Bytes32, signed: SignedReservationResult,
                              sequence: u64): Step {
    match ReadPackage(c, db, coin, sequence)
    case Failure(error) => Stop(db, [], coin, nonce, error)
    case Success(package) => Step(db, [], Done(coin, nonce, Success(ReservationOutcome(signed, Some(package)))))
  }

  /** One database access of a call, with the signatures made before the next one. */
  function Advance(c: Crypto, db: Database, task: Task): Step {
    match task
    case Begin(request, gate, key, now, point) => AdvanceBegin(c, db, request, gate, key, now, point)
    case ToFindChannel(job) => AdvanceFindChannel(c, db, job)
    case ToSignResult(job, row) => AdvanceSignResult(c, db, job, row)
    case ToSignState(job, row, r, signed) => AdvanceSignState(c, db, job, row, r, signed)
    case ToPackage(job, row, r, signed, state) => AdvancePackage(c, db, job, row, r, signed, state)
    case ToCommit(job, row, r, signed, work) => AdvanceCommit(c, db, job, row, r, signed, work)
    case ToReadChannel(coin, nonce) => AdvanceReadChannel(c, db, coin, nonce)
    case ToReadAnswer(coin, nonce, row) => AdvanceReadAnswer(c, db, coin, nonce, row)
    case ToReadPackage(coin, nonce, signed, sequence) => AdvanceReadPackage(c, db, coin, nonce, signed, sequence)
    case Done(_, _, _) => Step(db, [], task)
  }

  function Advancing(c: Crypto): (Database, Task) -> Step {
    (db, task) => Advance(c, db, task)
  }

  /** A call that nothing interrupts: up to `n` of its steps, one after the other. */
  function Steps(advance: (Database, Task) -> Step, db: Database, task: Task, n: nat): Step
    decreases n
  {
    if n == 0 || task.Done? then Step(db, [], task)
    else
      var step := advance(db, task);
      var rest := Steps(advance, step.db, step.task, n - 1);
      Step(rest.db, step.signings + rest.signings, rest.task)
  }

  /** No call takes more than nine steps. */
  function Finish(c: Crypto, db: Database, task: Task): Step {
    Steps(Advancing(c), db, task, 9)
  }

  // ---------------------------------------------------------------- many calls

  datatype Answer = Answer(coin: Bytes32, nonce: Bytes32, outcome: ReservationOutcome)

  /** The database, every signature made, the calls under way, and every successful answer given. */
  datatype World = World(db: Database, log: seq<Signing>, tasks: map<nat, Task>, answers: seq<Answer>)

  const EmptyWorld := World(map[], [], map[], [])

  /** What a caller can ask for: a reservation, the finalization of one row (as recovery does), or its answer. */
  datatype Call =
    | Reserve(request: ReservationRequest, gate: Gate, key: SecretKey, now: u64, point: FailurePoint)
    | Recover(coin: Bytes32, nonce: Bytes32, key: SecretKey)
    | Lookup(coin: Bytes32, nonce: Bytes32)

  function FirstTask(call: Call): Task {
    match call
    case Reserve(request, gate, key, now, point) => Begin(request, gate, key, now, point)
    case Recover(coin, nonce, key) => ToFindChannel(Job(coin, nonce, key, NoFailure))
    case Lookup(coin, nonce) => ToReadChannel(coin, nonce)
  }

  datatype Event =
    | Registers(reg: ChannelRegistration, now: u64, confirmationBlocks: u64, state: ChainState, peak: Option<Peak>)
    | Starts(id: nat, call: Call)
    | Advances(id: nat)
    | Crashes(ids: set<nat>)

  function AnswersOf(task: Task): seq<Answer> {
    if task.Done? && task.result.Success? then [Answer(task.coin, task.nonce, task.result.value)] else []
  }

  function Apply(c: Crypto, w: World, event: Event): World {
    match event
    case Registers(reg, now, confirmationBlocks, state, peak) =>
      var after := Register(c, w.db, reg, now, confirmationBlocks, state, peak);
      if after.Success? then w.(db := after.value) else w
    case Starts(id, call) => w.(tasks := w.tasks[id := FirstTask(call)])
    case Advances(id) =>
      if id !in w.tasks || w.tasks[id].Done? then w
      else
        var step := Advance(c, w.db, w.tasks[id]);
        World(step.db, w.log + step.signings, w.tasks[id := step.task], w.answers + AnswersOf(step.task))
    case Crashes(ids) => w.(tasks := w.tasks - ids)
  }

  function Run(c: Crypto, events: seq<Event>): World {
    if events == [] then EmptyWorld
    else Apply(c, Run(c, events[..|events| - 1]), events[|events| - 1])
  }
}
