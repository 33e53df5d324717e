/** The HUB's promises, over every run of the machine: any calls, any interleaving, any crashes. */
module HubTheorems {
  import opened ByteStrings
  import opened Protocol
  import opened Types
  import opened Preimages
  import opened HubRecords
  import opened HubSteps
  import opened HubInvariant
  import opened HubProgress
  import opened HubMachine
  import opened HubRuns

  // ---------------------------------------------------------------- the invariant of the machine

  ghost predicate LogOk(c: Crypto, db: Database, log: seq<Signing>) {
    forall i :: 0 <= i < |log| ==> SigningOk(c, db, log[i])
  }

  ghost predicate TasksOk(c: Crypto, db: Database, tasks: map<nat, Task>) {
    forall id {:trigger TaskOk(c, db, tasks[id])} :: id in tasks ==> TaskOk(c, db, tasks[id])
  }

  ghost predicate AnswersOk(db: Database, answers: seq<Answer>) {
    forall i :: 0 <= i < |answers| ==> AnswerOk(db, answers[i].coin, answers[i].nonce, answers[i].outcome)
  }

  ghost predicate WorldOk(c: Crypto, w: World) {
    DatabaseOk(c, w.db) && LogOk(c, w.db, w.log) && TasksOk(c, w.db, w.tasks) && AnswersOk(w.db, w.answers)
  }

  lemma LogStable(c: Crypto, before: Database, after: Database, log: seq<Signing>, more: seq<Signing>)
    requires Grows(before, after) && LogOk(c, before, log) && (forall s :: s in more ==> SigningOk(c, after, s))
    ensures LogOk(c, after, log + more)
  {
    forall i | 0 <= i < |log + more| ensures SigningOk(c, after, (log + more)[i]) {
      if i < |log| {
        SigningStable(c, before, after, log[i]);
      }
    }
  }

  lemma TasksStable(c: Crypto, before: Database, after: Database, tasks: map<nat, Task>)
    requires Grows(before, after) && TasksOk(c, before, tasks)
    ensures TasksOk(c, after, tasks)
  {
    forall id | id in tasks ensures TaskOk(c, after, tasks[id]) {
      TaskStable(c, before, after, tasks[id]);
    }
  }

  lemma TasksTake(c: Crypto, db: Database, tasks: map<nat, Task>, id: nat, task: Task)
    requires TasksOk(c, db, tasks) && TaskOk(c, db, task)
    ensures TasksOk(c, db, tasks[id := task])
  {
  }

  lemma AnswersStable(before: Database, after: Database, answers: seq<Answer>)
    requires Grows(before, after) && AnswersOk(before, answers)
    ensures AnswersOk(after, answers)
  {
    forall i | 0 <= i < |answers| ensures AnswerOk(after, answers[i].coin, answers[i].nonce, answers[i].outcome) {
      AnswerStable(before, after, answers[i].coin, answers[i].nonce, answers[i].outcome);
    }
  }

  lemma WorldGrows(c: Crypto, w: World, after: Database)
    requires WorldOk(c, w) && DatabaseOk(c, after) && Grows(w.db, after)
    ensures WorldOk(c, w.(db := after))
  {
    LogStable(c, w.db, after, w.log, []);
    assert w.log + [] == w.log;
    TasksStable(c, w.db, after, w.tasks);
    AnswersStable(w.db, after, w.answers);
  }

  /** A database that only ever grows, and a machine that stays well-formed. */
  ghost predicate Continues(c: Crypto, before: World, after: World) {
    && WorldOk(c, after) && Grows(before.db, after.db)
    && |before.log| <= |after.log| && |before.answers| <= |after.answers|
    && after.log[..|before.log|] == before.log && after.answers[..|before.answers|] == before.answers
  }

  lemma AdvanceContinues(c: Crypto, w: World, id: nat)
    requires WorldOk(c, w) && id in w.tasks && !w.tasks[id].Done?
    ensures Continues(c, w, Apply(c, w, Advances(id)))
  {
    var step := Advance(c, w.db, w.tasks[id]);
    assert TaskOk(c, w.db, w.tasks[id]);
    AdvanceOk(c, w.db, w.tasks[id]);
    StepContinues(c, w, id, step);
  }

  lemma StepContinues(c: Crypto, w: World, id: nat, step: Step)
    requires WorldOk(c, w) && StepOk(c, w.db, step)
    ensures Continues(c, w,
                      World(step.db, w.log + step.signings, w.tasks[id := step.task], w.answers + AnswersOf(step.task)))
  {
    LogStable(c, w.db, step.db, w.log, step.signings);
    TasksStable(c, w.db, step.db, w.tasks);
    TasksTake(c, step.db, w.tasks, id, step.task);
    AnswersStable(w.db, step.db, w.answers);
  }

  lemma RegistrationContinues(c: Crypto, w: World, event: Event)
    requires WorldOk(c, w) && event.Registers?
    ensures Continues(c, w, Apply(c, w, event))
  {
    var after := Register(c, w.db, event.reg, event.now, event.confirmationBlocks, event.state, event.peak);
    if after.Success? {
      RegisterKeeps(c, w.db, event.reg, event.now, event.confirmationBlocks, event.state, event.peak);
      WorldGrows(c, w, after.value);
    } else {
      DatabaseGrowsReflexive(w.db);
    }
  }

  lemma ApplyContinues(c: Crypto, w: World, event: Event)
    requires WorldOk(c, w)
    ensures Continues(c, w, Apply(c, w, event))
  {
    DatabaseGrowsReflexive(w.db);
    match event
    case Registers(_, _, _, _, _) => RegistrationContinues(c, w, event);
    case Starts(id, call) => TasksTake(c, w.db, w.tasks, id, FirstTask(call));
    case Advances(id) =>
      if id in w.tasks && !w.tasks[id].Done? {
        AdvanceContinues(c, w, id);
      }
    case Crashes(ids) =>
  }

  /** Every reachable machine is well-formed. */
  lemma {:induction false} RunOk(c: Crypto, events: seq<Event>)
    ensures WorldOk(c, Run(c, events))
  {
    if events != [] {
      RunOk(c, events[..|events| - 1]);
      ApplyContinues(c, Run(c, events[..|events| - 1]), events[|events| - 1]);
    }
  }

  /** A longer run only adds: to the database, to the signature log, to the answers. */
  lemma {:induction false} RunContinues(c: Crypto, events: seq<Event>, more: seq<Event>)
    ensures Continues(c, Run(c, events), Run(c, events + more))
  {
    if more == [] {
      assert events + more == events;
      RunOk(c, events);
      DatabaseGrowsReflexive(Run(c, events).db);
    } else {
      var front := more[..|more| - 1];
      assert (events + more)[..|events + more| - 1] == events + front;
      RunContinues(c, events, front);
      ApplyContinues(c, Run(c, events + front), more[|more| - 1]);
      ContinuesTransitive(c, Run(c, events), Run(c, events + front), Run(c, events + more));
    }
  }

  lemma ContinuesTransitive(c: Crypto, u: World, v: World, w: World)
    requires Continues(c, u, v) && Continues(c, v, w)
    ensures Continues(c, u, w)
  {
    GrowsTransitive(u.db, v.db, w.db);
    assert w.log[..|u.log|] == w.log[..|v.log|][..|u.log|];
    assert w.answers[..|u.answers|] == w.answers[..|v.answers|][..|u.answers|];
  }

  // ---------------------------------------------------------------- no double signing

  /** The HUB never signs two different checkpoints for one coin and sequence. */
  lemma NoDoubleSigning(c: Crypto, events: seq<Event>, i: nat, j: nat)
    requires i < |Run(c, events).log| && j < |Run(c, events).log|
    requires Run(c, events).log[i].StateSigned? && Run(c, events).log[j].StateSigned?
    requires Run(c, events).log[i].checkpoint.fundingCoinId == Run(c, events).log[j].checkpoint.fundingCoinId
    requires Run(c, events).log[i].checkpoint.stateSequence == Run(c, events).log[j].checkpoint.stateSequence
    ensures Run(c, events).log[i].checkpoint == Run(c, events).log[j].checkpoint
    ensures Run(c, events).log[i].terms == Run(c, events).log[j].terms
  {
    RunOk(c, events);
    OneCheckpoint(c, Run(c, events).db, Run(c, events).log[i], Run(c, events).log[j]);
  }

  lemma OneCheckpoint(c: Crypto, db: Database, s: Signing, u: Signing)
    requires SigningOk(c, db, s) && SigningOk(c, db, u) && s.StateSigned? && u.StateSigned?
    requires s.checkpoint.fundingCoinId == u.checkpoint.fundingCoinId
    requires s.checkpoint.stateSequence == u.checkpoint.stateSequence
    ensures s.checkpoint == u.checkpoint && s.terms == u.terms
  {
  }

  /** The strings hashed to make one signature. */
  ghost function SigningInputs(c: Crypto, s: Signing): set<Bytes> {
    {SignedPreimage(c, s)} + (if s.StateSigned? then {CheckpointPreimage(s.terms, s.checkpoint)} else {})
  }

  ghost function CheckpointInputs(c: Crypto, t: ChannelTerms, k: LedgerCheckpoint): set<Bytes> {
    {HubStatePreimage(CheckpointDigest(c, t, k)), CheckpointPreimage(t, k)}
  }

  /** A signed message that reads as a state's was made for that very checkpoint, or two hashed strings collide. */
  lemma SignedStateIs(c: Crypto, s: Signing, t: ChannelTerms, k: LedgerCheckpoint)
    requires c.sha256(SignedPreimage(c, s)) == HubStateDigest(c, t, k)
    requires CollisionFree(c.sha256, SigningInputs(c, s) + CheckpointInputs(c, t, k))
    ensures s.StateSigned? && s.checkpoint == k
  {
    var inputs := SigningInputs(c, s) + CheckpointInputs(c, t, k);
    NoCollision(c.sha256, inputs, SignedPreimage(c, s), HubStatePreimage(CheckpointDigest(c, t, k)));
    match s
    case ResultSigned(_, result) =>
      SignedMessageKindsDiffer(CheckpointDigest(c, t, k), result);
      assert false;
    case StateSigned(_, u, l) =>
      HubStatePreimageInjective(CheckpointDigest(c, u, l), CheckpointDigest(c, t, k));
      NoCollision(c.sha256, inputs, CheckpointPreimage(u, l), CheckpointPreimage(t, k));
      CheckpointPreimageInjective(u, l, t, k);
  }

  lemma ValidEvidenceConflicts(c: Crypto, t: ChannelTerms, e: DoubleSignEvidence)
    requires ValidateDoubleSign(c, t, e).Pass?
    ensures e.first.checkpoint.fundingCoinId == e.second.checkpoint.fundingCoinId
    ensures e.first.checkpoint.stateSequence == e.second.checkpoint.stateSequence
    ensures e.first.checkpoint != e.second.checkpoint
  {
  }

  /** No double-sign evidence against the HUB validates, whatever its signature bytes, when both messages are ones the
      HUB signed: anything that does is a SHA-256 collision. */
  lemma NoDoubleSignEvidence(c: Crypto, events: seq<Event>, t: ChannelTerms, e: DoubleSignEvidence, i: nat, j: nat)
    requires i < |Run(c, events).log| && j < |Run(c, events).log|
    requires c.sha256(SignedPreimage(c, Run(c, events).log[i])) == HubStateDigest(c, t, e.first.checkpoint)
    requires c.sha256(SignedPreimage(c, Run(c, events).log[j])) == HubStateDigest(c, t, e.second.checkpoint)
    requires CollisionFree(c.sha256,
                           SigningInputs(c, Run(c, events).log[i]) + CheckpointInputs(c, t, e.first.checkpoint))
    requires CollisionFree(c.sha256,
                           SigningInputs(c, Run(c, events).log[j]) + CheckpointInputs(c, t, e.second.checkpoint))
    ensures ValidateDoubleSign(c, t, e).Fail?
  {
    SignedStateIs(c, Run(c, events).log[i], t, e.first.checkpoint);
    SignedStateIs(c, Run(c, events).log[j], t, e.second.checkpoint);
    if ValidateDoubleSign(c, t, e).Pass? {
      ValidEvidenceConflicts(c, t, e);
      NoDoubleSigning(c, events, i, j);
      assert false;
    }
  }

  // ---------------------------------------------------------------- one answer per nonce

  /** All successful answers for one coin and nonce are equal, whoever asked, whenever, with whatever chain view. */
  lemma OneAnswer(c: Crypto, events: seq<Event>, i: nat, j: nat)
    requires i < |Run(c, events).answers| && j < |Run(c, events).answers|
    requires Run(c, events).answers[i].coin == Run(c, events).answers[j].coin
    requires Run(c, events).answers[i].nonce == Run(c, events).answers[j].nonce
    ensures Run(c, events).answers[i].outcome == Run(c, events).answers[j].outcome
  {
    RunOk(c, events);
    SameAnswer(Run(c, events).db, Run(c, events).answers[i], Run(c, events).answers[j]);
  }

  lemma SameAnswer(db: Database, a: Answer, b: Answer)
    requires AnswerOk(db, a.coin, a.nonce, a.outcome) && AnswerOk(db, b.coin, b.nonce, b.outcome)
    requires a.coin == b.coin && a.nonce == b.nonce
    ensures a.outcome == b.outcome
  {
  }

  lemma SignedResultIs(c: Crypto, s: Signing, r: ReservationResult)
    requires c.sha256(SignedPreimage(c, s)) == ResultDigest(c, r) && ValidateResult(r).Pass?
    requires s.ResultSigned? ==> ValidateResult(s.result).Pass?
    requires CollisionFree(c.sha256, {SignedPreimage(c, s), ResultPreimage(r)})
    ensures s.ResultSigned? && s.result == r
  {
    NoCollision(c.sha256, {SignedPreimage(c, s), ResultPreimage(r)}, SignedPreimage(c, s), ResultPreimage(r));
    match s
    case ResultSigned(_, result) => ResultPreimageInjective(result, r);
    case StateSigned(_, u, l) =>
      SignedMessageKindsDiffer(CheckpointDigest(c, u, l), r);
      assert false;
  }

  lemma ValidConflictDiffers(c: Crypto, t: ChannelTerms, e: ConflictingResultEvidence)
    requires ValidateConflict(c, t, e).Pass?
    ensures ValidateResult(e.first.result).Pass? && ValidateResult(e.second.result).Pass?
    ensures e.first.result.fundingCoinId == e.second.result.fundingCoinId
    ensures e.first.result.reservationNonce == e.second.result.reservationNonce
    ensures e.first.result != e.second.result
  {
  }

  lemma OneResult(c: Crypto, db: Database, s: Signing, u: Signing)
    requires SigningOk(c, db, s) && SigningOk(c, db, u) && s.ResultSigned? && u.ResultSigned?
    requires s.result.fundingCoinId == u.result.fundingCoinId && s.result.reservationNonce == u.result.reservationNonce
    ensures s.result == u.result
  {
  }

  lemma LoggedSigningOk(c: Crypto, events: seq<Event>, i: nat)
    requires i < |Run(c, events).log|
    ensures SigningOk(c, Run(c, events).db, Run(c, events).log[i])
    ensures Run(c, events).log[i].ResultSigned? ==> ValidateResult(Run(c, events).log[i].result).Pass?
  {
    RunOk(c, events);
  }

  /** No conflicting-result evidence against the HUB validates when both results are ones it signed. */
  lemma NoConflictingResultEvidence(c: Crypto, events: seq<Event>, t: ChannelTerms, e: ConflictingResultEvidence,
                                    i: nat, j: nat)
    requires i < |Run(c, events).log| && j < |Run(c, events).log|
    requires c.sha256(SignedPreimage(c, Run(c, events).log[i])) == ResultDigest(c, e.first.result)
    requires c.sha256(SignedPreimage(c, Run(c, events).log[j])) == ResultDigest(c, e.second.result)
    requires CollisionFree(c.sha256, {SignedPreimage(c, Run(c, events).log[i]), ResultPreimage(e.first.result)})
    requires CollisionFree(c.sha256, {SignedPreimage(c, Run(c, events).log[j]), ResultPreimage(e.second.result)})
    ensures ValidateConflict(c, t, e).Fail?
  {
    if ValidateConflict(c, t, e).Pass? {
      ValidConflictDiffers(c, t, e);
      LoggedSigningOk(c, events, i);
      LoggedSigningOk(c, events, j);
      var db, s, u := Run(c, events).db, Run(c, events).log[i], Run(c, events).log[j];
      SignedResultIs(c, s, e.first.result);
      SignedResultIs(c, u, e.second.result);
      OneResult(c, db, s, u);
      assert false;
    }
  }
}
