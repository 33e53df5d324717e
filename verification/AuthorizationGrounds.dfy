/** What an execution authorization stands on: the evidence it was issued on, field by field, and the submission that
    consumed it. */
module AuthorizationGrounds {
  import opened ByteStrings
  import opened Protocol
  import opened Authorization
  import Audit

  // ---------------------------------------------------------------- the evidence

  /** A verified manifest, a verified recheck of the very same target, the preparation it was made for, unchanged, and
      both approvals of that preparation, in the set the manifest names. */
  predicate Grounded(e: Evidence) {
    && e.manifest.Some? && e.recheck.Some? && e.preparation.Some?
    && (var m, r, p := e.manifest.value, e.recheck.value, e.preparation.value;
        && m.verified && r.verified
        && r.target.preparationId == m.target.preparationId && r.target.closingCoinId == m.target.closingCoinId
        && r.target.fundingCoinId == m.target.fundingCoinId && r.target.feeCoinId == m.target.feeCoinId
        && r.target.reportHash == m.target.reportHash && r.target.bundleCommitment == m.target.bundleCommitment
        && r.target.approvalSetHash == m.target.approvalSetHash && r.target.peakHeight == m.target.peakHeight
        && r.target.peakHeaderHash == m.target.peakHeaderHash && r.target.deadline == m.target.deadline
        && e.approval.dualApproved && e.approval.preparationId == m.target.preparationId
        && e.approval.setHash == m.target.approvalSetHash
        && p.fundingCoinId == m.target.fundingCoinId && p.feeCoinId == m.target.feeCoinId
        && p.reportHash == m.target.reportHash && p.bundleCommitment == m.target.bundleCommitment
        && p.peakHeight == m.target.peakHeight && p.peakHeaderHash == m.target.peakHeaderHash
        && p.deadline == m.target.deadline)
  }

  lemma EvidenceCheckedIff(s: State, e: Evidence)
    ensures CheckEvidence(s, e).Success? <==> Grounded(e) && e.manifest.value.id !in s.receipts
    ensures CheckEvidence(s, e).Success? ==> CheckEvidence(s, e).value == e.manifest.value
  {
  }

  // ---------------------------------------------------------------- when an issue succeeds

  /** Five seconds, or until the manifest expires. */
  predicate Ends(m: Manifest, now: u64, end: u64) {
    now < end && end <= now + 5 && end <= m.expiresAt && (end == now + 5 || end == m.expiresAt)
  }

  lemma ExpiryIsEnd(m: Manifest, now: u64)
    ensures ExpiryOf(m, now).Success? <==> now + 5 < 0x1_0000_0000_0000_0000 && now < m.expiresAt
    ensures ExpiryOf(m, now).Success? ==> Ends(m, now, ExpiryOf(m, now).value)
  {
  }

  lemma OneEnd(m: Manifest, now: u64, x: u64, y: u64)
    requires Ends(m, now, x) && Ends(m, now, y)
    ensures x == y
  {
  }

  /** An authorization of this id is active and has not run out. */
  predicate StillActive(s: State, id: Bytes32, now: u64) {
    id in s.authorizations && s.authorizations[id].status == Active && s.authorizations[id].expiresAt > now
  }

  function IssueFact(m: Manifest, id: Bytes32, now: u64): Audit.Fact {
    Audit.Fact(Ascii("EXECUTION_AUTHORIZATION_ISSUED"), id, m.target.bundleCommitment,
               Ascii("EXECUTION_AUTHORIZED_SIMULATED_ONLY"), now)
  }

  /** The audit chain takes this event. */
  ghost predicate AuditTakes(c: Crypto, log: Audit.Log, fact: Audit.Fact) {
    && log.count < MAX_PROTOCOL_U64
    && (forall i :: 0 <= i < |log.events| ==>
          log.events[i].hash != Audit.EventHash(c, log.count + 1, log.head, fact))
  }

  /** A new row can be stored: its id is new, its target makes sense, its numbers fit, and the audit chain takes it. */
  ghost predicate Storable(c: Crypto, s: State, m: Manifest, id: Bytes32, now: u64, end: u64) {
    && id !in s.authorizations
    && 0 < m.target.peakHeight < m.target.deadline <= MAX_PROTOCOL_U64 && end <= MAX_PROTOCOL_U64
    && AuditTakes(c, s.audit, IssueFact(m, id, now))
  }

  lemma ExpiredRow(s: State, id: Bytes32, now: u64)
    ensures var after := ExpireRow(s, id, now);
            && after.authorizations.Keys == s.authorizations.Keys
            && after.audit == s.audit && after.receipts == s.receipts
            && (id in s.authorizations ==> (after.authorizations[id].status == Active <==> StillActive(s, id, now)))
            && (StillActive(s, id, now) ==> after == s)
  {
  }

  lemma InsertSucceedsIff(c: Crypto, s: State, m: Manifest, id: Bytes32, now: u64, end: u64)
    requires Audit.ValidLog(c, s.audit) && now <= MAX_PROTOCOL_U64
    ensures Insert(c, s, m, id, now, end).Success? <==> Storable(c, s, m, id, now, end)
  {
    Audit.AppendSucceedsIff(c, s.audit, IssueFact(m, id, now));
  }

  lemma InsertAndReadSucceedsIff(c: Crypto, s: State, m: Manifest, id: Bytes32, now: u64, end: u64)
    requires Audit.ValidLog(c, s.audit) && now <= MAX_PROTOCOL_U64
    ensures InsertAndRead(c, s, m, id, now, end).1.Success? <==>
            (id in s.authorizations && s.authorizations[id].status == Active) || Storable(c, s, m, id, now, end)
  {
    InsertSucceedsIff(c, s, m, id, now, end);
  }

  /** What is known once the evidence is: the rest of an issue is inserting the row and reading it back. */
  lemma GroundedIssue(c: Crypto, s: State, e: Evidence, now: u64, end: u64)
    requires Grounded(e) && e.manifest.value.id !in s.receipts && now <= MAX_PROTOCOL_U64
    requires Ends(e.manifest.value, now, end)
    ensures var m, id := e.manifest.value, AuthorizationId(c, e.manifest.value, now, end);
            Issue(c, s, e, now) == InsertAndRead(c, ExpireRow(s, id, now), m, id, now, end)
  {
    EvidenceCheckedIff(s, e);
    ExpiryIsEnd(e.manifest.value, now);
    OneEnd(e.manifest.value, now, end, ExpiryOf(e.manifest.value, now).value);
  }

  lemma UngroundedIssue(c: Crypto, s: State, e: Evidence, now: u64)
    requires Issue(c, s, e, now).1.Success?
    ensures Grounded(e) && e.manifest.value.id !in s.receipts && now <= MAX_PROTOCOL_U64
    ensures now < e.manifest.value.expiresAt
  {
    EvidenceCheckedIff(s, e);
    if CheckEvidence(s, e).Success? {
      ExpiryIsEnd(CheckEvidence(s, e).value, now);
    }
  }

  /** When an issue succeeds: the evidence holds, the manifest has no receipt and has not expired, and the authorization
      is either there and active or can be stored. */
  lemma IssueSucceedsIff(c: Crypto, s: State, e: Evidence, now: u64, end: u64)
    requires StateOk(c, s)
    requires e.manifest.Some? && now < e.manifest.value.expiresAt ==> Ends(e.manifest.value, now, end)
    ensures Issue(c, s, e, now).1.Success? <==>
            && Grounded(e) && e.manifest.value.id !in s.receipts
            && now <= MAX_PROTOCOL_U64 && now < e.manifest.value.expiresAt
            && (var id := AuthorizationId(c, e.manifest.value, now, end);
                StillActive(s, id, now) || Storable(c, s, e.manifest.value, id, now, end))
  {
    if Issue(c, s, e, now).1.Success? {
      UngroundedIssue(c, s, e, now);
    }
    if Grounded(e) && e.manifest.value.id !in s.receipts && now <= MAX_PROTOCOL_U64
       && now < e.manifest.value.expiresAt {
      var m, id := e.manifest.value, AuthorizationId(c, e.manifest.value, now, end);
      GroundedIssue(c, s, e, now, end);
      ExpiredRow(s, id, now);
      InsertAndReadSucceedsIff(c, ExpireRow(s, id, now), m, id, now, end);
    }
  }

  // ---------------------------------------------------------------- what an issue stores

  /** A new authorization is the manifest's own: its target whole, issued now, unused. */
  predicate IssuedFor(m: Manifest, now: u64, a: Authorization) {
    && a.manifestId == m.id && a.recheckId == m.recheckId && a.target == m.target
    && a.issuedAt == now && Ends(m, now, a.expiresAt)
  }

  /** A row an issue adds was asked for on grounds that held. */
  lemma NewRowIsGrounded(c: Crypto, s: State, e: Evidence, now: u64, i: Bytes32)
    requires i in Issue(c, s, e, now).0.authorizations && i !in s.authorizations
    ensures Grounded(e) && e.manifest.value.id !in s.receipts
    ensures IssuedFor(e.manifest.value, now, Issue(c, s, e, now).0.authorizations[i])
  {
    IssuedRows(c, s, e, now, i);
    EvidenceCheckedIff(s, e);
    ExpiryIsEnd(e.manifest.value, now);
  }

  /** Event `n` of the run issued this authorization, on grounds that held. */
  ghost predicate GroundedAt(c: Crypto, events: seq<Event>, n: nat, i: Bytes32, a: Authorization) {
    && n < |events| && events[n].Issues? && Grounded(events[n].evidence)
    && i !in Run(c, events[..n]).authorizations
    && events[n].evidence.manifest.value.id !in Run(c, events[..n]).receipts
    && IssuedFor(events[n].evidence.manifest.value, events[n].now, a)
  }

  /** Every authorization of every reachable store was issued by one event of the run, on evidence that held in every
      field, both approvals among them, for a manifest without a receipt. */
  lemma {:induction false} EveryRowIsGrounded(c: Crypto, events: seq<Event>, i: Bytes32) returns (n: nat)
    requires i in Run(c, events).authorizations
    ensures GroundedAt(c, events, n, i, Run(c, events).authorizations[i])
  {
    var front, event := events[..|events| - 1], events[|events| - 1];
    var s := Run(c, front);
    RunOk(c, front);
    if i in s.authorizations {
      n := EveryRowIsGrounded(c, front, i);
      assert front[..n] == events[..n];
      ApplyKeeps(c, s, event);
      assert SameGrant(s.authorizations[i], Run(c, events).authorizations[i]);
    } else {
      n := |front|;
      if !event.Issues? {
        OnlyIssuesAdd(c, s, event);
      }
      NewRowIsGrounded(c, s, event.evidence, event.now, i);
    }
  }

  // ---------------------------------------------------------------- what a receipt records

  /** The submission that consumes: of an active authorization that has not run out, under a manifest that is still
      verified and names the same bundle, with a nonce no receipt has. */
  ghost predicate ConsumedBy(c: Crypto, s: State, event: Event, r: Receipt) {
    && event.Simulates? && event.now == r.consumedAt <= MAX_PROTOCOL_U64
    && event.id == r.authorizationId && event.nonce == r.nonce
    && StillActive(s, r.authorizationId, r.consumedAt)
    && (var a := s.authorizations[r.authorizationId];
        && a.manifestId == r.manifestId && a.target.bundleCommitment == r.bundleCommitment
        && event.manifest.Some? && event.manifest.value.verified
        && event.manifest.value.target.bundleCommitment == r.bundleCommitment)
    && r.manifestId !in s.receipts
    && (forall m :: m in s.receipts ==> s.receipts[m].nonce != r.nonce)
    && r.id == c.sha256(Ascii("XHUB_SIMULATED_SUBMISSION_RECEIPT_V3_6")
                        + (U16(0x0360) + (r.authorizationId + (r.manifestId + (r.bundleCommitment + (
                           r.nonce + U64(r.consumedAt)))))))
  }

  lemma SubmitConsumes(c: Crypto, s: State, id: Bytes32, nonce: Bytes32, manifest: Option<Manifest>, now: u64,
                       m: Bytes32)
    requires id in s.authorizations && m !in s.receipts && m in Submit(c, s, id, nonce, manifest, now).0.receipts
    requires now <= MAX_PROTOCOL_U64 && (s.authorizations[id].status == Active ==> s.authorizations[id].expiresAt > now)
    ensures ConsumedBy(c, s, Simulates(id, nonce, manifest, now),
                       Submit(c, s, id, nonce, manifest, now).0.receipts[m])
  {
  }

  lemma NoOtherReceipts(c: Crypto, s: State, event: Event)
    requires !event.Simulates?
    ensures Apply(c, s, event).receipts == s.receipts
  {
    if event.Issues? {
      IssueAddsNoReceipt(c, s, event.evidence, event.now);
    }
  }

  lemma IssueAddsNoReceipt(c: Crypto, s: State, e: Evidence, now: u64)
    ensures Issue(c, s, e, now).0.receipts == s.receipts
  {
    IssueOutcome(c, s, e, now);
    var m := CheckEvidence(s, e);
    if m.Success? && ExpiryOf(m.value, now).Success? {
      var id := AuthorizationId(c, m.value, now, ExpiryOf(m.value, now).value);
      InsertingAddsNoReceipt(c, ExpireRow(s, id, now), m.value, id, now, ExpiryOf(m.value, now).value);
    }
  }

  lemma InsertingAddsNoReceipt(c: Crypto, s: State, m: Manifest, id: Bytes32, now: u64, end: u64)
    ensures InsertAndRead(c, s, m, id, now, end).0.receipts == s.receipts
  {
  }

  lemma NewReceiptIsConsumed(c: Crypto, s: State, event: Event, m: Bytes32)
    requires m !in s.receipts && m in Apply(c, s, event).receipts
    ensures ConsumedBy(c, s, event, Apply(c, s, event).receipts[m])
  {
    if !event.Simulates? {
      NoOtherReceipts(c, s, event);
    }
    var read := Settled(s, Read(s, event.id, event.now));
    SimulateOutcome(c, s, event.id, event.nonce, event.manifest, event.now);
    ExpiredRow(s, event.id, event.now);
    SubmitConsumes(c, read, event.id, event.nonce, event.manifest, event.now, m);
  }

  lemma {:induction false} EveryReceiptIsConsumed(c: Crypto, events: seq<Event>, m: Bytes32) returns (n: nat)
    requires m in Run(c, events).receipts
    ensures n < |events| && ConsumedBy(c, Run(c, events[..n]), events[n], Run(c, events).receipts[m])
  {
    var front, event := events[..|events| - 1], events[|events| - 1];
    var s := Run(c, front);
    RunOk(c, front);
    if m in s.receipts {
      n := EveryReceiptIsConsumed(c, front, m);
      assert front[..n] == events[..n];
      ApplyKeeps(c, s, event);
    } else {
      n := |front|;
      NewReceiptIsConsumed(c, s, event, m);
    }
  }

  /** The clock the issues and submissions of a run are made by never runs back. */
  predicate ClockHolds(events: seq<Event>) {
    forall i, j :: 0 <= i < j < |events| && events[i].Issues? && events[j].Simulates? ==> events[i].now <= events[j].now
  }

  /** Over every run, a receipt was recorded by one submission, event `n`, of an authorization that event `k` before it
      had issued on evidence that held: before that authorization ran out, and not before it was issued unless the
      clock ran back; under a manifest still verified, for the bundle the evidence named. */
  lemma ReceiptIsGrounded(c: Crypto, events: seq<Event>, m: Bytes32) returns (k: nat, n: nat)
    requires m in Run(c, events).receipts
    ensures k < n < |events|
    ensures var r := Run(c, events).receipts[m];
            && ConsumedBy(c, Run(c, events[..n]), events[n], r)
            && (var a := Run(c, events[..n]).authorizations[r.authorizationId];
                && GroundedAt(c, events, k, r.authorizationId, a)
                && r.consumedAt < a.expiresAt && (ClockHolds(events) ==> a.issuedAt <= r.consumedAt))
  {
    n := EveryReceiptIsConsumed(c, events, m);
    k := EveryRowIsGrounded(c, events[..n], Run(c, events).receipts[m].authorizationId);
    assert events[..n][..k] == events[..k];
  }

  // ---------------------------------------------------------------- when a submission succeeds

  function ReceiptFor(c: Crypto, id: Bytes32, a: Authorization, nonce: Bytes32, now: u64): Receipt {
    Receipt(ReceiptId(c, id, a, nonce, now), id, a.manifestId, a.target.bundleCommitment, nonce, now)
  }

  function SubmissionFact(r: Receipt): Audit.Fact {
    Audit.Fact(Ascii("SIMULATED_SUBMISSION_RECORDED"), r.id, r.bundleCommitment, Ascii("SIMULATED_SUBMISSION_RECORDED"),
               r.consumedAt)
  }

  /** The manifest found still stands behind the authorization. */
  predicate StandsBehind(manifest: Option<Manifest>, a: Authorization) {
    manifest.Some? && manifest.value.verified && manifest.value.target.bundleCommitment == a.target.bundleCommitment
  }

  /** A first submission of an authorization can be consumed: its manifest has no receipt and no receipt its nonce, it
      is active and has not run out, the manifest found stands behind it, and receipt and audit event are new. */
  ghost predicate Consumable(c: Crypto, s: State, id: Bytes32, nonce: Bytes32, manifest: Option<Manifest>, now: u64) {
    && StillActive(s, id, now)
    && (var a := s.authorizations[id];
        && a.manifestId !in s.receipts
        && (forall m :: m in s.receipts ==> s.receipts[m].nonce != nonce)
        && StandsBehind(manifest, a)
        && (forall m :: m in s.receipts ==> s.receipts[m].id != ReceiptFor(c, id, a, nonce, now).id)
        && AuditTakes(c, s.audit, SubmissionFact(ReceiptFor(c, id, a, nonce, now))))
  }

  /** The submission has been recorded before. */
  predicate Recorded(s: State, id: Bytes32, nonce: Bytes32) {
    && id in s.authorizations && s.authorizations[id].manifestId in s.receipts
    && s.receipts[s.authorizations[id].manifestId].authorizationId == id
    && s.receipts[s.authorizations[id].manifestId].nonce == nonce
  }

  lemma ConsumeSucceedsIff(c: Crypto, s: State, id: Bytes32, nonce: Bytes32, now: u64)
    requires StateOk(c, s) && id in s.authorizations && s.authorizations[id].status == Active && now <= MAX_PROTOCOL_U64
    ensures var a := s.authorizations[id];
            Consume(c, s, id, nonce, now).Success? <==>
            && (forall m :: m in s.receipts ==> s.receipts[m].nonce != nonce)
            && (forall m :: m in s.receipts ==> s.receipts[m].id != ReceiptFor(c, id, a, nonce, now).id)
            && AuditTakes(c, s.audit, SubmissionFact(ReceiptFor(c, id, a, nonce, now)))
  {
    var a := s.authorizations[id];
    assert RowOk(s.authorizations, s.receipts, id);
    ConsumeCases(c, s, id, nonce, now);
    Audit.AppendSucceedsIff(c, s.audit, SubmissionFact(ReceiptFor(c, id, a, nonce, now)));
    ReceiptFitsIff(s, id, ReceiptFor(c, id, a, nonce, now));
  }

  lemma ConsumeCases(c: Crypto, s: State, id: Bytes32, nonce: Bytes32, now: u64)
    requires id in s.authorizations && s.authorizations[id].status == Active && now <= MAX_PROTOCOL_U64
    ensures var a, receipt := s.authorizations[id], ReceiptFor(c, id, s.authorizations[id], nonce, now);
            Consume(c, s, id, nonce, now).Success? <==>
            && a.submissions == 0 && ReceiptFits(s.receipts, receipt)
            && Audit.Append(c, s.audit, SubmissionFact(receipt)).Success?
  {
  }

  lemma ReceiptFitsIff(s: State, id: Bytes32, receipt: Receipt)
    requires ReceiptsOk(s.authorizations, s.receipts) && id in s.authorizations
    requires s.authorizations[id].status == Active && receipt.manifestId !in s.receipts && receipt.authorizationId == id
    ensures ReceiptFits(s.receipts, receipt) <==>
            && (forall m :: m in s.receipts ==> s.receipts[m].nonce != receipt.nonce)
            && (forall m :: m in s.receipts ==> s.receipts[m].id != receipt.id)
  {
    forall m | m in s.receipts ensures s.receipts[m].authorizationId != id {
      assert ReceiptOk(s.authorizations, s.receipts, m);
    }
  }

  lemma SubmitCases(c: Crypto, s: State, id: Bytes32, nonce: Bytes32, manifest: Option<Manifest>, now: u64)
    requires id in s.authorizations
    ensures Submit(c, s, id, nonce, manifest, now).1.Success? <==>
            || Recorded(s, id, nonce)
            || (&& s.authorizations[id].manifestId !in s.receipts && !NonceUsed(s.receipts, nonce)
                && s.authorizations[id].status == Active && StandsBehind(manifest, s.authorizations[id])
                && Consume(c, s, id, nonce, now).Success?)
  {
  }

  lemma SimulateCases(c: Crypto, s: State, id: Bytes32, nonce: Bytes32, manifest: Option<Manifest>, now: u64)
    ensures Simulate(c, s, id, nonce, manifest, now).1.Success? <==>
            && now <= MAX_PROTOCOL_U64 && id in s.authorizations
            && Submit(c, ExpireRow(s, id, now), id, nonce, manifest, now).1.Success?
  {
  }

  /** When a submission succeeds: the time fits its column, and it was recorded before or can be consumed now. */
  lemma SubmissionSucceedsIff(c: Crypto, s: State, id: Bytes32, nonce: Bytes32, manifest: Option<Manifest>, now: u64)
    requires StateOk(c, s)
    ensures Simulate(c, s, id, nonce, manifest, now).1.Success? <==>
            now <= MAX_PROTOCOL_U64 && (Recorded(s, id, nonce) || Consumable(c, s, id, nonce, manifest, now))
  {
    SimulateCases(c, s, id, nonce, manifest, now);
    if now <= MAX_PROTOCOL_U64 && id in s.authorizations {
      var read := ExpireRow(s, id, now);
      ExpiredRow(s, id, now);
      ExpireKeeps(c, s, id, now);
      SubmitCases(c, read, id, nonce, manifest, now);
      if read.authorizations[id].status == Active {
        ConsumeSucceedsIff(c, read, id, nonce, now);
      }
    }
  }

  // ---------------------------------------------------------------- what an operation touches

  /** The manifest was found and no longer stands behind an active authorization that could still be submitted under
      this nonce. */
  predicate Withdrawn(s: State, id: Bytes32, nonce: Bytes32, manifest: Option<Manifest>, now: u64) {
    && StillActive(s, id, now) && s.authorizations[id].manifestId !in s.receipts
    && (forall m :: m in s.receipts ==> s.receipts[m].nonce != nonce)
    && manifest.Some? && !StandsBehind(manifest, s.authorizations[id])
  }

  lemma FailedSubmit(c: Crypto, s: State, id: Bytes32, nonce: Bytes32, manifest: Option<Manifest>, now: u64)
    requires id in s.authorizations && Submit(c, s, id, nonce, manifest, now).1.Failure?
    ensures Submit(c, s, id, nonce, manifest, now).0 ==
            if s.authorizations[id].manifestId !in s.receipts && !NonceUsed(s.receipts, nonce)
               && s.authorizations[id].status == Active && manifest.Some?
               && !StandsBehind(manifest, s.authorizations[id])
            then s.(authorizations := s.authorizations[id := s.authorizations[id].(status := Invalidated)])
            else s
  {
  }

  /** A submission that fails expires its authorization if its time has come, withdraws it exactly when its manifest has
      changed, and otherwise changes nothing. */
  lemma FailedSubmissionLeaves(c: Crypto, s: State, id: Bytes32, nonce: Bytes32, manifest: Option<Manifest>, now: u64)
    requires Simulate(c, s, id, nonce, manifest, now).1.Failure?
    ensures Simulate(c, s, id, nonce, manifest, now).0 ==
            if now > MAX_PROTOCOL_U64 || id !in s.authorizations then s
            else if Withdrawn(s, id, nonce, manifest, now)
            then s.(authorizations := s.authorizations[id := s.authorizations[id].(status := Invalidated)])
            else if s.authorizations[id].status == Active && s.authorizations[id].expiresAt <= now
            then s.(authorizations := s.authorizations[id := s.authorizations[id].(status := Expired)])
            else s
  {
    if now <= MAX_PROTOCOL_U64 && id in s.authorizations {
      FailedSubmit(c, ExpireRow(s, id, now), id, nonce, manifest, now);
    }
  }

  /** An issue touches the other rows of its own manifest only, and only to mark them superseded; besides, it marks the
      row under its own id expired if its time has come. */
  lemma IssueTouches(c: Crypto, s: State, e: Evidence, now: u64, i: Bytes32)
    requires i in s.authorizations
    ensures i in Issue(c, s, e, now).0.authorizations
    ensures var a, after := s.authorizations[i], Issue(c, s, e, now).0.authorizations[i];
            || after == a
            || (a.status == Active && a.expiresAt <= now && after == a.(status := Expired))
            || (a.status == Active && Grounded(e) && a.manifestId == e.manifest.value.id
                && after == a.(status := Superseded))
  {
    IssueOutcome(c, s, e, now);
    EvidenceCheckedIff(s, e);
  }

  /** The column a withdrawal matches. */
  predicate Names(a: Authorization, column: Column, value: Bytes32) {
    match column
    case ByManifest => value == a.manifestId
    case ByRecheck => value == a.recheckId
    case ByPreparation => value == a.target.preparationId
    case ByClosingCoin => value == a.target.closingCoinId
    case ByFundingCoin => value == a.target.fundingCoinId
  }

  /** A withdrawal gives its status to exactly the active authorizations that name the value. */
  lemma WithdrawalTouches(s: State, column: Column, value: Bytes32, status: Status, now: u64)
    ensures Invalidate(s, column, value, status, now).Success? <==> now <= MAX_PROTOCOL_U64
    ensures now <= MAX_PROTOCOL_U64 ==>
              var after := Invalidate(s, column, value, status, now).value;
              && after.receipts == s.receipts && after.audit == s.audit
              && after.authorizations.Keys == s.authorizations.Keys
              && forall i :: i in s.authorizations ==>
                   var a := s.authorizations[i];
                   after.authorizations[i] ==
                   if a.status == Active && Names(a, column, value) then a.(status := status) else a
  {
  }

  /** The authorization a receipt names was consumed once, and says when. */
  predicate MarksRow(s: State, r: Receipt) {
    && r.authorizationId in s.authorizations
    && (var a := s.authorizations[r.authorizationId];
        a.status == Consumed && a.submissions == 1 && a.lastSimulatedAt == Some(r.consumedAt))
  }

  /** In every reachable store a receipt's authorization is marked consumed, at the receipt's own time. */
  lemma {:induction false} ConsumedRowSays(c: Crypto, events: seq<Event>, m: Bytes32)
    requires m in Run(c, events).receipts
    ensures MarksRow(Run(c, events), Run(c, events).receipts[m])
  {
    var front, event := events[..|events| - 1], events[|events| - 1];
    var s := Run(c, front);
    RunOk(c, front);
    if m in s.receipts {
      ConsumedRowSays(c, front, m);
      ApplyKeeps(c, s, event);
    } else {
      ApplyKeeps(c, s, event);
      NewReceiptMarksRow(c, s, event, m);
    }
  }

  lemma NewReceiptMarksRow(c: Crypto, s: State, event: Event, m: Bytes32)
    requires StateOk(c, s) && m !in s.receipts && m in Apply(c, s, event).receipts
    ensures MarksRow(Apply(c, s, event), Apply(c, s, event).receipts[m])
  {
    if !event.Simulates? {
      NoOtherReceipts(c, s, event);
    }
    var read := Settled(s, Read(s, event.id, event.now));
    ReadKeeps(c, s, event.id, event.now);
    ReadAddsNoReceipt(s, event.id, event.now);
    SimulateOutcome(c, s, event.id, event.nonce, event.manifest, event.now);
    SubmitMarksRow(c, read, event.id, event.nonce, event.manifest, event.now, m);
  }

  lemma ReadAddsNoReceipt(s: State, id: Bytes32, now: u64)
    ensures Settled(s, Read(s, id, now)).receipts == s.receipts
  {
  }

  lemma SubmitMarksRow(c: Crypto, s: State, id: Bytes32, nonce: Bytes32, manifest: Option<Manifest>, now: u64,
                       m: Bytes32)
    requires StateOk(c, s) && id in s.authorizations
    requires m !in s.receipts && m in Submit(c, s, id, nonce, manifest, now).0.receipts
    ensures var after := Submit(c, s, id, nonce, manifest, now).0;
            MarksRow(after, after.receipts[m])
  {
    assert RowOk(s.authorizations, s.receipts, id);
    SubmitOutcome(c, s, id, nonce, manifest, now);
  }
}
