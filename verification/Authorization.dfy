/** Execution authorizations: issued, expired, superseded, invalidated, and consumed exactly once. */
module Authorization {
  import opened ByteStrings
  import opened Protocol
  import Audit

  const EXECUTION_AUTHORIZATION_DOMAIN: Bytes := Ascii("XHUB_EXECUTION_AUTHORIZATION_V3_6")
  const SIMULATED_SUBMISSION_RECEIPT_DOMAIN: Bytes := Ascii("XHUB_SIMULATED_SUBMISSION_RECEIPT_V3_6")
  const EXECUTION_AUTHORIZATION_TTL_SECONDS: u64 := 5
  const ISSUED: Audit.Text := Ascii("EXECUTION_AUTHORIZATION_ISSUED")
  const RECORDED: Audit.Text := Ascii("SIMULATED_SUBMISSION_RECORDED")
  const AUTHORIZED: Audit.Text := Ascii("EXECUTION_AUTHORIZED_SIMULATED_ONLY")

  datatype AuthError =
    | Invalid(reason: string) | Corrupt(reason: string) | Database(reason: string)
    | AuditFailure(cause: Audit.AuditError)

  datatype Status = Active | Expired | Invalidated | Superseded | Consumed

  /** What an authorization is for; manifests and rechecks carry the same fields. */
  datatype Target = Target(
    preparationId: Bytes32, closingCoinId: Bytes32, fundingCoinId: Bytes32, feeCoinId: Bytes32, reportHash: Bytes32,
    bundleCommitment: Bytes32, approvalSetHash: Bytes32, peakHeight: u64, peakHeaderHash: Bytes32, deadline: u64)

  // Records of other components, as a call finds them.
  datatype Manifest = Manifest(id: Bytes32, recheckId: Bytes32, target: Target, expiresAt: u64, verified: bool)
  datatype Recheck = Recheck(target: Target, verified: bool)
  datatype Preparation = Preparation(
    fundingCoinId: Bytes32, feeCoinId: Bytes32, reportHash: Bytes32, bundleCommitment: Bytes32,
    peakHeight: u64, peakHeaderHash: Bytes32, deadline: u64)
  datatype Approval = Approval(preparationId: Bytes32, dualApproved: bool, setHash: Bytes32)

  /** Everything an issue reads of them. */
  datatype Evidence = Evidence(manifest: Option<Manifest>, recheck: Option<Recheck>, preparation: Option<Preparation>,
                               approval: Approval)

  datatype Authorization = Authorization(
    manifestId: Bytes32, recheckId: Bytes32, target: Target, issuedAt: u64, expiresAt: u64, status: Status,
    submissions: nat, lastSimulatedAt: Option<u64>)

  datatype Receipt = Receipt(
    id: Bytes32, authorizationId: Bytes32, manifestId: Bytes32, bundleCommitment: Bytes32, nonce: Bytes32,
    consumedAt: u64)

  /** The three tables; receipts by their unique manifest. */
  datatype State = State(authorizations: map<Bytes32, Authorization>, receipts: map<Bytes32, Receipt>, audit: Audit.Log)

  // ---------------------------------------------------------------- issuing

  /** The manifest still says what the recheck, the preparation and the approvals say. */
  predicate Consistent(m: Manifest, r: Recheck, p: Preparation, a: Approval) {
    && r.verified && r.target == m.target
    && a.dualApproved && a.preparationId == m.target.preparationId && a.setHash == m.target.approvalSetHash
    && p.fundingCoinId == m.target.fundingCoinId && p.feeCoinId == m.target.feeCoinId
    && p.reportHash == m.target.reportHash && p.bundleCommitment == m.target.bundleCommitment
    && p.peakHeight == m.target.peakHeight && p.peakHeaderHash == m.target.peakHeaderHash
    && p.deadline == m.target.deadline
  }

  /** The string an authorization's id is the hash of. */
  function IdPreimage(manifestId: Bytes32, recheckId: Bytes32, bundleCommitment: Bytes32, approvalSetHash: Bytes32,
                      issuedAt: u64, expiresAt: u64): Bytes
  {
    EXECUTION_AUTHORIZATION_DOMAIN + (U16(PROTOCOL_VERSION) + (manifestId + (recheckId + (bundleCommitment + (
      approvalSetHash + (U64(issuedAt) + U64(expiresAt)))))))
  }

  function ManifestPreimage(m: Manifest, issuedAt: u64, expiresAt: u64): Bytes {
    IdPreimage(m.id, m.recheckId, m.target.bundleCommitment, m.target.approvalSetHash, issuedAt, expiresAt)
  }

  function AuthorizationId(c: Crypto, m: Manifest, issuedAt: u64, expiresAt: u64): Bytes32 {
    c.sha256(ManifestPreimage(m, issuedAt, expiresAt))
  }

  /** The expiry of a new authorization, if there is time for one at all. */
  function ExpiryOf(m: Manifest, now: u64): Result<u64, AuthError> {
    if now + EXECUTION_AUTHORIZATION_TTL_SECONDS >= 0x1_0000_0000_0000_0000 then
      Failure(Invalid("execution authorization expiry overflow"))
    else
      var end: u64 := if now + EXECUTION_AUTHORIZATION_TTL_SECONDS < m.expiresAt then
        now + EXECUTION_AUTHORIZATION_TTL_SECONDS else m.expiresAt;
      if end <= now then Failure(Invalid("execution manifest expires before authorization can be issued"))
      else Success(end)
  }

  /** The checks before anything is written. */
  function CheckEvidence(s: State, e: Evidence): Result<Manifest, AuthError> {
    if e.manifest.None? then Failure(Invalid("execution manifest was not found"))
    else if !e.manifest.value.verified then Failure(Invalid("execution manifest is not active"))
    else if e.manifest.value.id in s.receipts then
      Failure(Invalid("execution manifest was already consumed by a simulated submission"))
    else if e.recheck.None? || e.preparation.None? then Failure(Corrupt("authorization record was not found"))
    else if !Consistent(e.manifest.value, e.recheck.value, e.preparation.value, e.approval) then
      Failure(Corrupt("execution manifest no longer matches the final recheck"))
    else Success(e.manifest.value)
  }

  /** A conditional update of every active row that matches. */
  function UpdateActive(rows: map<Bytes32, Authorization>, matches: Authorization -> bool, status: Status)
    : map<Bytes32, Authorization>
  {
    map id | id in rows ::
      if rows[id].status == Active && matches(rows[id]) then rows[id].(status := status) else rows[id]
  }

  function ExpireRow(s: State, id: Bytes32, now: u64): State {
    if id in s.authorizations && s.authorizations[id].status == Active && s.authorizations[id].expiresAt <= now
    then s.(authorizations := s.authorizations[id := s.authorizations[id].(status := Expired)])
    else s
  }

  /** Times are stored as signed 64-bit integers; one that is too late is refused before anything is written. */
  function CheckTime(now: u64): Outcome<AuthError> {
    if now > MAX_PROTOCOL_U64 then Fail(Invalid("sqlite u64")) else Pass
  }

  /** `execution_authorization`: the state after expiring the row it reads. */
  function Read(s: State, id: Bytes32, now: u64): Result<State, AuthError> {
    var fits := CheckTime(now);
    :- fits;
    Success(ExpireRow(s, id, now))
  }

  predicate RowFits(t: Target, now: u64, end: u64) {
    && t.peakHeight > 0 && t.deadline > t.peakHeight && t.deadline <= MAX_PROTOCOL_U64
    && now <= MAX_PROTOCOL_U64 && end <= MAX_PROTOCOL_U64
  }

  function NewRow(m: Manifest, now: u64, end: u64): Authorization {
    Authorization(m.id, m.recheckId, m.target, now, end, Active, 0, None)
  }

  function Supersede(s: State, manifest: Bytes32): State {
    s.(authorizations := UpdateActive(s.authorizations, (a: Authorization) => a.manifestId == manifest, Superseded))
  }

  function WithRow(s: State, id: Bytes32, a: Authorization, audit: Audit.Log): State {
    State(s.authorizations[id := a], s.receipts, audit)
  }

  /** The transaction that supersedes, inserts and records; all of it or none. */
  function Insert(c: Crypto, s: State, m: Manifest, id: Bytes32, now: u64, end: u64): Result<State, AuthError> {
    if !RowFits(m.target, now, end) then Failure(Database("CHECK constraint or range on authorizations"))
    else if id in s.authorizations then Failure(Database("UNIQUE constraint on authorizations"))
    else
      var appended := Audit.Append(c, s.audit, Audit.Fact(ISSUED, id, m.target.bundleCommitment, AUTHORIZED, now));
      if appended.Failure? then Failure(AuditFailure(appended.error))
      else
        Success(WithRow(Supersede(s, m.id), id, NewRow(m, now, end), appended.value))
  }

  /** Inserts the row and reads it back. */
  function InsertAndRead(c: Crypto, s: State, m: Manifest, id: Bytes32, now: u64, end: u64)
    : (State, Result<(Bytes32, Authorization), AuthError>)
  {
    if id in s.authorizations && s.authorizations[id].status == Active then (s, Success((id, s.authorizations[id])))
    else
      var inserted := Insert(c, s, m, id, now, end);
      if inserted.Failure? then (s, Failure(inserted.error))
      else
        var after := ExpireRow(inserted.value, id, now);
        (after, if id in after.authorizations then Success((id, after.authorizations[id]))
                else Failure(Corrupt("new execution authorization was not found")))
  }

  /** `issue_execution_authorization`. */
  function Issue(c: Crypto, s: State, e: Evidence, now: u64): (State, Result<(Bytes32, Authorization), AuthError>) {
    var m := CheckEvidence(s, e);
    if m.Failure? then (s, Failure(m.error)) else
    var end := ExpiryOf(m.value, now);
    if end.Failure? then (s, Failure(end.error))
    else
      var id := AuthorizationId(c, m.value, now, end.value);
      var read := Read(s, id, now);
      if read.Failure? then (s, Failure(read.error))
      else InsertAndRead(c, read.value, m.value, id, now, end.value)
  }

  // ---------------------------------------------------------------- consuming

  function ReceiptId(c: Crypto, id: Bytes32, a: Authorization, nonce: Bytes32, now: u64): Bytes32 {
    c.sha256(SIMULATED_SUBMISSION_RECEIPT_DOMAIN
             + (U16(PROTOCOL_VERSION) + (id + (a.manifestId + (a.target.bundleCommitment + (
      nonce + U64(now)))))))
  }

  predicate NonceUsed(receipts: map<Bytes32, Receipt>, nonce: Bytes32) {
    exists m :: m in receipts && receipts[m].nonce == nonce
  }

  /** The unique columns of the receipts table. */
  predicate ReceiptFits(receipts: map<Bytes32, Receipt>, r: Receipt) {
    && r.manifestId !in receipts
    && (forall m :: m in receipts ==>
        receipts[m].id != r.id && receipts[m].authorizationId != r.authorizationId && receipts[m].nonce != r.nonce)
  }

  /** The transaction that consumes an authorization and records its receipt; all of it or none. */
  function Consume(c: Crypto, s: State, id: Bytes32, nonce: Bytes32, now: u64): Result<(State, Receipt), AuthError>
    requires id in s.authorizations
  {
    var a := s.authorizations[id];
    if a.status != Active || a.submissions != 0 then Failure(Invalid("execution authorization was already consumed"))
    else if now > MAX_PROTOCOL_U64 then Failure(Invalid("sqlite u64"))
    else
      var r := Receipt(ReceiptId(c, id, a, nonce, now), id, a.manifestId, a.target.bundleCommitment, nonce, now);
      if !ReceiptFits(s.receipts, r) then Failure(Database("UNIQUE constraint on receipts"))
      else
        var appended := Audit.Append(c, s.audit, Audit.Fact(RECORDED, r.id, a.target.bundleCommitment, RECORDED, now));
        if appended.Failure? then Failure(AuditFailure(appended.error))
        else
          var consumed := a.(status := Consumed, submissions := a.submissions + 1, lastSimulatedAt := Some(now));
          Success((State(s.authorizations[id := consumed], s.receipts[a.manifestId := r], appended.value), r))
  }

  /** What stands in the way of a submission, before the manifest is read. */
  function CheckSubmission(s: State, a: Authorization, nonce: Bytes32): Outcome<AuthError> {
    if a.manifestId in s.receipts then
      Fail(Invalid("execution manifest was already consumed by another simulated submission"))
    else if NonceUsed(s.receipts, nonce) then
      Fail(Invalid("submission nonce was already used by another simulated submission"))
    else if a.status != Active then Fail(Invalid("execution authorization is not active"))
    else Pass
  }

  predicate SameSubmission(r: Receipt, id: Bytes32, nonce: Bytes32) {
    r.authorizationId == id && r.nonce == nonce
  }

  /** The submission of an authorization just read. */
  function Submit(c: Crypto, s: State, id: Bytes32, nonce: Bytes32, manifest: Option<Manifest>, now: u64)
    : (State, Result<Receipt, AuthError>)
    requires id in s.authorizations
  {
    var a := s.authorizations[id];
    var checked := CheckSubmission(s, a, nonce);
    if a.manifestId in s.receipts && SameSubmission(s.receipts[a.manifestId], id, nonce) then
      (s, Success(s.receipts[a.manifestId]))
    else if checked.Fail? then (s, Failure(checked.error))
    else SubmitChecked(c, s, id, nonce, manifest, now)
  }

  /** What remains once nothing stands in the way: the manifest, and the transaction. */
  function SubmitChecked(c: Crypto, s: State, id: Bytes32, nonce: Bytes32, manifest: Option<Manifest>, now: u64)
    : (State, Result<Receipt, AuthError>)
    requires id in s.authorizations
  {
    var a := s.authorizations[id];
    if manifest.None? then (s, Failure(Corrupt("authorization manifest was not found")))
    else if !manifest.value.verified || manifest.value.target.bundleCommitment != a.target.bundleCommitment then
      (s.(authorizations := s.authorizations[id := a.(status := Invalidated)]),
       Failure(Invalid("execution authorization was invalidated")))
    else
      var consumed := Consume(c, s, id, nonce, now);
      if consumed.Failure? then (s, Failure(consumed.error)) else (consumed.value.0, Success(consumed.value.1))
  }

  /** `simulate_execution_submission`; the manifest is the one found under the authorization's manifest id. */
  function Simulate(c: Crypto, s: State, id: Bytes32, nonce: Bytes32, manifest: Option<Manifest>, now: u64)
    : (State, Result<Receipt, AuthError>)
  {
    var read := Read(s, id, now);
    if read.Failure? then (s, Failure(read.error))
    else if id !in read.value.authorizations then
      (read.value, Failure(Invalid("execution authorization was not found")))
    else Submit(c, read.value, id, nonce, manifest, now)
  }

  // ---------------------------------------------------------------- the machine

  datatype Column = ByManifest | ByRecheck | ByPreparation | ByClosingCoin | ByFundingCoin

  function ColumnOf(a: Authorization, column: Column): Bytes32 {
    match column
    case ByManifest => a.manifestId case ByRecheck => a.recheckId case ByPreparation => a.target.preparationId
    case ByClosingCoin => a.target.closingCoinId case ByFundingCoin => a.target.fundingCoinId
  }

  /** `invalidate_execution_authorizations`: other components withdraw what they no longer stand behind. */
  function Invalidate(s: State, column: Column, value: Bytes32, status: Status, now: u64): Result<State, AuthError> {
    var fits := CheckTime(now);
    :- fits;
    Success(s.(authorizations :=
      UpdateActive(s.authorizations, (a: Authorization) => ColumnOf(a, column) == value, status)))
  }

  datatype Event =
    | Issues(evidence: Evidence, now: u64)
    | Reads(id: Bytes32, now: u64)
    | Simulates(id: Bytes32, nonce: Bytes32, manifest: Option<Manifest>, now: u64)
    | Invalidates(column: Column, value: Bytes32, status: Status, now: u64)
    | Audits(fact: Audit.Fact)

  /** A call that fails leaves the state it found. */
  function Settled(s: State, r: Result<State, AuthError>): State {
    if r.Failure? then s else r.value
  }

  function Withdraw(s: State, column: Column, value: Bytes32, status: Status, now: u64): State {
    if status == Active || status == Consumed then s else Settled(s, Invalidate(s, column, value, status, now))
  }

  /** Other components' events share the audit log. */
  function AuditOther(c: Crypto, s: State, fact: Audit.Fact): State {
    if fact.eventType == ISSUED || fact.eventType == RECORDED then s
    else
      var appended := Audit.Append(c, s.audit, fact);
      if appended.Failure? then s else s.(audit := appended.value)
  }

  function Apply(c: Crypto, s: State, event: Event): State {
    match event
    case Issues(evidence, now) => Issue(c, s, evidence, now).0
    case Reads(id, now) => Settled(s, Read(s, id, now))
    case Simulates(id, nonce, manifest, now) => Simulate(c, s, id, nonce, manifest, now).0
    case Invalidates(column, value, status, now) => Withdraw(s, column, value, status, now)
    case Audits(fact) => AuditOther(c, s, fact)
  }

  function Start(c: Crypto): State {
    State(map[], map[], Audit.Log([], 0, Audit.GenesisHash(c)))
  }

  function Run(c: Crypto, events: seq<Event>): State {
    if events == [] then Start(c) else Apply(c, Run(c, events[..|events| - 1]), events[|events| - 1])
  }

  // ---------------------------------------------------------------- the invariant

  ghost predicate OneActive(rows: map<Bytes32, Authorization>) {
    forall i, j :: (i in rows && j in rows && rows[i].status == Active && rows[j].status == Active
                    && rows[i].manifestId == rows[j].manifestId) ==> i == j
  }

  /** An active row is unused and its manifest has no receipt; a consumed row is its manifest's receipt's. */
  ghost predicate RowOk(rows: map<Bytes32, Authorization>, receipts: map<Bytes32, Receipt>, i: Bytes32)
    requires i in rows
  {
    && (rows[i].status == Active ==> rows[i].submissions == 0 && rows[i].manifestId !in receipts)
    && (rows[i].status == Consumed <==> rows[i].submissions > 0)
    && (rows[i].status == Consumed ==>
          rows[i].submissions == 1 && rows[i].manifestId in receipts
              && receipts[rows[i].manifestId].authorizationId == i)
  }

  ghost predicate RowsOk(rows: map<Bytes32, Authorization>, receipts: map<Bytes32, Receipt>) {
    forall i {:trigger RowOk(rows, receipts, i)} :: i in rows ==> RowOk(rows, receipts, i)
  }

  /** A receipt is its manifest's and its authorization was consumed. */
  ghost predicate ReceiptOk(rows: map<Bytes32, Authorization>, receipts: map<Bytes32, Receipt>, m: Bytes32)
    requires m in receipts
  {
    && receipts[m].manifestId == m && receipts[m].authorizationId in rows
    && rows[receipts[m].authorizationId].status == Consumed && rows[receipts[m].authorizationId].manifestId == m
  }

  ghost predicate ReceiptsOk(rows: map<Bytes32, Authorization>, receipts: map<Bytes32, Receipt>) {
    && (forall m {:trigger ReceiptOk(rows, receipts, m)} :: m in receipts ==> ReceiptOk(rows, receipts, m))
    && (forall m, n :: m in receipts && n in receipts && receipts[m].nonce == receipts[n].nonce ==> m == n)
  }

  function CountOf(events: seq<Audit.Event>, eventType: Audit.Text): nat {
    if events == [] then 0
    else
      CountOf(events[..|events| - 1], eventType)
      + (if events[|events| - 1].fact.eventType == eventType then 1 else 0)
  }

  ghost predicate CountsOk(c: Crypto, issued: nat, recorded: nat, audit: Audit.Log) {
    && Audit.ValidLog(c, audit)
    && issued == CountOf(audit.events, ISSUED)
    && recorded == CountOf(audit.events, RECORDED)
  }

  ghost predicate TablesOk(rows: map<Bytes32, Authorization>, receipts: map<Bytes32, Receipt>) {
    OneActive(rows) && RowsOk(rows, receipts) && ReceiptsOk(rows, receipts)
  }

  ghost predicate StateOk(c: Crypto, s: State) {
    && TablesOk(s.authorizations, s.receipts)
    && CountsOk(c, |s.authorizations|, |s.receipts|, s.audit)
  }

  /** The same manifest, recheck, target and times; only use and status may differ. */
  predicate SameGrant(a: Authorization, b: Authorization) {
    b == a.(status := b.status, submissions := b.submissions, lastSimulatedAt := b.lastSimulatedAt)
  }

  /** What no later operation undoes: rows stay, inactive rows and receipts stay as they are. */
  ghost predicate Continues(a: State, b: State) {
    && (forall id :: id in a.authorizations ==>
          && id in b.authorizations && SameGrant(a.authorizations[id], b.authorizations[id])
          && (a.authorizations[id].status != Active ==> b.authorizations[id] == a.authorizations[id]))
    && (forall m :: m in a.receipts ==> m in b.receipts && b.receipts[m] == a.receipts[m])
  }

  // ---------------------------------------------------------------- every operation keeps it

  lemma AppendCounts(c: Crypto, log: Audit.Log, fact: Audit.Fact, eventType: Audit.Text)
    requires Audit.ValidLog(c, log) && Audit.Append(c, log, fact).Success?
    ensures Audit.ValidLog(c, Audit.Append(c, log, fact).value)
    ensures CountOf(Audit.Append(c, log, fact).value.events, eventType) ==
            CountOf(log.events, eventType) + (if fact.eventType == eventType then 1 else 0)
  {
    var after := Audit.Append(c, log, fact).value.events;
    Audit.AppendKeepsValid(c, log, fact);
    assert after[..|after| - 1] == log.events;
  }

  lemma KindsDiffer()
    ensures ISSUED != RECORDED
  {
    assert |ISSUED| == 30 && |RECORDED| == 29;
  }

  /** Rows that only lose activity. */
  ghost predicate Quietens(before: map<Bytes32, Authorization>, after: map<Bytes32, Authorization>) {
    && after.Keys == before.Keys
    && (forall id :: id in before ==>
          || after[id] == before[id]
          || (before[id].status == Active && after[id] == before[id].(status := after[id].status)
              && after[id].status != Active && after[id].status != Consumed))
  }

  lemma QuieteningKeepsTables(rows: map<Bytes32, Authorization>, after: map<Bytes32, Authorization>,
                              receipts: map<Bytes32, Receipt>)
    requires TablesOk(rows, receipts) && Quietens(rows, after)
    ensures TablesOk(after, receipts)
  {
    forall i | i in after ensures RowOk(after, receipts, i) {
      assert RowOk(rows, receipts, i);
    }
    forall m | m in receipts ensures ReceiptOk(after, receipts, m) {
      assert ReceiptOk(rows, receipts, m);
    }
  }

  lemma QuieteningKeeps(c: Crypto, s: State, rows: map<Bytes32, Authorization>)
    requires StateOk(c, s) && Quietens(s.authorizations, rows)
    ensures StateOk(c, s.(authorizations := rows)) && Continues(s, s.(authorizations := rows))
  {
    QuieteningKeepsTables(s.authorizations, rows, s.receipts);
    assert |rows.Keys| == |s.authorizations.Keys|;
  }

  lemma UpdateQuietens(rows: map<Bytes32, Authorization>, matches: Authorization -> bool, status: Status)
    requires status != Active && status != Consumed
    ensures Quietens(rows, UpdateActive(rows, matches, status))
  {
  }

  lemma ExpireKeeps(c: Crypto, s: State, id: Bytes32, now: u64)
    requires StateOk(c, s)
    ensures StateOk(c, ExpireRow(s, id, now)) && Continues(s, ExpireRow(s, id, now))
  {
    QuieteningKeeps(c, s, ExpireRow(s, id, now).authorizations);
  }

  lemma ReadKeeps(c: Crypto, s: State, id: Bytes32, now: u64)
    requires StateOk(c, s)
    ensures StateOk(c, Settled(s, Read(s, id, now))) && Continues(s, Settled(s, Read(s, id, now)))
  {
    if Read(s, id, now).Success? {
      ExpireKeeps(c, s, id, now);
    }
  }

  lemma ContinuesTransitive(a: State, b: State, d: State)
    requires Continues(a, b) && Continues(b, d)
    ensures Continues(a, d)
  {
  }

  /** A new active row, once every active row of its manifest has been superseded. */
  lemma NewRowOk(rows: map<Bytes32, Authorization>, receipts: map<Bytes32, Receipt>, id: Bytes32, a: Authorization)
    requires TablesOk(rows, receipts)
    requires id !in rows && a.status == Active && a.submissions == 0 && a.manifestId !in receipts
    requires forall i :: i in rows && rows[i].manifestId == a.manifestId ==> rows[i].status != Active
    ensures TablesOk(rows[id := a], receipts)
  {
    var updated := rows[id := a];
    forall i | i in updated ensures RowOk(updated, receipts, i) {
      if i != id {
        assert RowOk(rows, receipts, i);
      }
    }
    forall m | m in receipts ensures ReceiptOk(updated, receipts, m) {
      assert ReceiptOk(rows, receipts, m);
    }
  }

  lemma NewRowKeeps(c: Crypto, s: State, id: Bytes32, a: Authorization, audit: Audit.Log)
    requires StateOk(c, s) && id !in s.authorizations && a.status == Active && a.submissions == 0
    requires a.manifestId !in s.receipts
    requires forall i :: i in s.authorizations && s.authorizations[i].manifestId == a.manifestId ==>
               s.authorizations[i].status != Active
    requires CountsOk(c, |s.authorizations| + 1, |s.receipts|, audit)
    ensures StateOk(c, WithRow(s, id, a, audit)) && Continues(s, WithRow(s, id, a, audit))
  {
    NewRowOk(s.authorizations, s.receipts, id, a);
    assert s.authorizations[id := a].Keys == s.authorizations.Keys + {id};
  }

  lemma SupersedeKeeps(c: Crypto, s: State, manifest: Bytes32)
    requires StateOk(c, s)
    ensures StateOk(c, Supersede(s, manifest)) && Continues(s, Supersede(s, manifest))
    ensures var after := Supersede(s, manifest);
            && after.authorizations.Keys == s.authorizations.Keys && after.receipts == s.receipts
            && after.audit == s.audit
            && forall i :: i in after.authorizations && after.authorizations[i].manifestId == manifest ==>
                 after.authorizations[i].status != Active
  {
    UpdateQuietens(s.authorizations, (a: Authorization) => a.manifestId == manifest, Superseded);
    QuieteningKeeps(c, s, Supersede(s, manifest).authorizations);
  }

  lemma IssueCounts(c: Crypto, issued: nat, recorded: nat, log: Audit.Log, fact: Audit.Fact)
    requires CountsOk(c, issued, recorded, log) && fact.eventType == ISSUED && Audit.Append(c, log, fact).Success?
    ensures CountsOk(c, issued + 1, recorded, Audit.Append(c, log, fact).value)
  {
    KindsDiffer();
    AppendCounts(c, log, fact, ISSUED);
    AppendCounts(c, log, fact, RECORDED);
  }

  lemma InsertOutcome(c: Crypto, s: State, m: Manifest, id: Bytes32, now: u64, end: u64)
    requires Insert(c, s, m, id, now, end).Success?
    ensures id !in s.authorizations
    ensures var appended :=
            Audit.Append(c, s.audit, Audit.Fact(ISSUED, id, m.target.bundleCommitment, AUTHORIZED, now));
            && appended.Success?
            && Insert(c, s, m, id, now, end).value
                == WithRow(Supersede(s, m.id), id, NewRow(m, now, end), appended.value)
  {
  }

  lemma InsertKeeps(c: Crypto, s: State, m: Manifest, id: Bytes32, now: u64, end: u64)
    requires StateOk(c, s) && m.id !in s.receipts && Insert(c, s, m, id, now, end).Success?
    ensures StateOk(c, Insert(c, s, m, id, now, end).value) && Continues(s, Insert(c, s, m, id, now, end).value)
  {
    var fact := Audit.Fact(ISSUED, id, m.target.bundleCommitment, AUTHORIZED, now);
    var before, after := Supersede(s, m.id), Insert(c, s, m, id, now, end).value;
    InsertOutcome(c, s, m, id, now, end);
    SupersedeKeeps(c, s, m.id);
    IssueCounts(c, |before.authorizations|, |s.receipts|, s.audit, fact);
    NewRowKeeps(c, before, id, NewRow(m, now, end), Audit.Append(c, s.audit, fact).value);
    ContinuesTransitive(s, before, after);
  }

  lemma InsertAndReadKeeps(c: Crypto, s: State, m: Manifest, id: Bytes32, now: u64, end: u64)
    requires StateOk(c, s) && m.id !in s.receipts
    ensures StateOk(c, InsertAndRead(c, s, m, id, now, end).0) && Continues(s, InsertAndRead(c, s, m, id, now, end).0)
  {
    var inserted := Insert(c, s, m, id, now, end);
    if inserted.Success? {
      InsertKeeps(c, s, m, id, now, end);
      ExpireKeeps(c, inserted.value, id, now);
      ContinuesTransitive(s, inserted.value, ExpireRow(inserted.value, id, now));
    }
  }

  /** What an issue leaves: what it found, or what inserting and reading back left. */
  lemma IssueOutcome(c: Crypto, s: State, e: Evidence, now: u64)
    ensures var after := Issue(c, s, e, now);
            || (after.0 == s && after.1.Failure?)
            || (&& CheckEvidence(s, e).Success? && ExpiryOf(CheckEvidence(s, e).value, now).Success?
                && var (m, end) := (CheckEvidence(s, e).value, ExpiryOf(CheckEvidence(s, e).value, now).value);
                   var id := AuthorizationId(c, m, now, end);
                   after == InsertAndRead(c, ExpireRow(s, id, now), m, id, now, end))
  {
  }

  lemma IssueKeeps(c: Crypto, s: State, e: Evidence, now: u64)
    requires StateOk(c, s)
    ensures StateOk(c, Issue(c, s, e, now).0) && Continues(s, Issue(c, s, e, now).0)
  {
    IssueOutcome(c, s, e, now);
    if Issue(c, s, e, now).0 != s {
      var m, end := CheckEvidence(s, e).value, ExpiryOf(CheckEvidence(s, e).value, now).value;
      var id := AuthorizationId(c, m, now, end);
      ManifestUnreceipted(s, e);
      ExpireKeeps(c, s, id, now);
      InsertAndReadKeeps(c, ExpireRow(s, id, now), m, id, now, end);
      ContinuesTransitive(s, ExpireRow(s, id, now), Issue(c, s, e, now).0);
    } else {
      ContinuesReflexive(s);
    }
  }

  lemma ManifestUnreceipted(s: State, e: Evidence)
    requires CheckEvidence(s, e).Success?
    ensures e.manifest == Some(CheckEvidence(s, e).value) && CheckEvidence(s, e).value.id !in s.receipts
  {
  }

  /** The one active row of a manifest, consumed, with its receipt. */
  ghost predicate Consumes(rows: map<Bytes32, Authorization>, receipts: map<Bytes32, Receipt>, id: Bytes32,
                           a: Authorization, r: Receipt)
  {
    && id in rows && rows[id].status == Active
    && a.manifestId == rows[id].manifestId && a.status == Consumed && a.submissions == 1
    && r.manifestId == a.manifestId && r.authorizationId == id && ReceiptFits(receipts, r)
  }

  lemma ConsumedRowsOk(rows: map<Bytes32, Authorization>, receipts: map<Bytes32, Receipt>, id: Bytes32,
                       a: Authorization, r: Receipt)
    requires TablesOk(rows, receipts) && Consumes(rows, receipts, id, a, r)
    ensures TablesOk(rows[id := a], receipts[a.manifestId := r])
  {
    var updated, more := rows[id := a], receipts[a.manifestId := r];
    forall i | i in updated ensures RowOk(updated, more, i) {
      assert RowOk(rows, receipts, i);
    }
    forall m | m in more ensures ReceiptOk(updated, more, m) {
      if m != a.manifestId {
        assert ReceiptOk(rows, receipts, m);
      }
    }
  }

  lemma SizeAfter<K, V>(m: map<K, V>, k: K, v: V)
    ensures |m[k := v]| == if k in m then |m| else |m| + 1
  {
    assert m[k := v].Keys == m.Keys + {k};
  }

  lemma ConsumedContinues(s: State, id: Bytes32, a: Authorization, r: Receipt, audit: Audit.Log)
    requires id in s.authorizations && s.authorizations[id].status == Active
    requires SameGrant(s.authorizations[id], a) && a.manifestId !in s.receipts
    ensures Continues(s, State(s.authorizations[id := a], s.receipts[a.manifestId := r], audit))
  {
  }

  lemma ConsumedRowKeeps(c: Crypto, s: State, id: Bytes32, a: Authorization, r: Receipt, audit: Audit.Log)
    requires TablesOk(s.authorizations, s.receipts) && Consumes(s.authorizations, s.receipts, id, a, r)
    requires CountsOk(c, |s.authorizations|, |s.receipts| + 1, audit)
    ensures StateOk(c, State(s.authorizations[id := a], s.receipts[a.manifestId := r], audit))
  {
    ConsumedRowsOk(s.authorizations, s.receipts, id, a, r);
    SizeAfter(s.authorizations, id, a);
    SizeAfter(s.receipts, a.manifestId, r);
  }

  lemma ConsumeKeeps(c: Crypto, s: State, id: Bytes32, nonce: Bytes32, now: u64)
    requires StateOk(c, s) && id in s.authorizations && Consume(c, s, id, nonce, now).Success?
    ensures StateOk(c, Consume(c, s, id, nonce, now).value.0) && Continues(s, Consume(c, s, id, nonce, now).value.0)
  {
    var a := s.authorizations[id];
    var r := Receipt(ReceiptId(c, id, a, nonce, now), id, a.manifestId, a.target.bundleCommitment, nonce, now);
    var fact := Audit.Fact(RECORDED, r.id, a.target.bundleCommitment, RECORDED, now);
    var consumed := a.(status := Consumed, submissions := a.submissions + 1, lastSimulatedAt := Some(now));
    KindsDiffer();
    AppendCounts(c, s.audit, fact, ISSUED);
    AppendCounts(c, s.audit, fact, RECORDED);
    ConsumedRowKeeps(c, s, id, consumed, r, Audit.Append(c, s.audit, fact).value);
    ConsumedContinues(s, id, consumed, r, Audit.Append(c, s.audit, fact).value);
  }

  lemma WithdrawKeeps(c: Crypto, s: State, id: Bytes32)
    requires StateOk(c, s) && id in s.authorizations && s.authorizations[id].status == Active
    ensures var after := s.(authorizations := s.authorizations[id := s.authorizations[id].(status := Invalidated)]);
            StateOk(c, after) && Continues(s, after)
  {
    QuieteningKeeps(c, s, s.authorizations[id := s.authorizations[id].(status := Invalidated)]);
  }

  lemma SubmitOutcome(c: Crypto, s: State, id: Bytes32, nonce: Bytes32, manifest: Option<Manifest>, now: u64)
    requires id in s.authorizations
    ensures var after := Submit(c, s, id, nonce, manifest, now).0;
            || after == s
            || (s.authorizations[id].status == Active
                && after == s.(authorizations := s.authorizations[id := s.authorizations[id].(status := Invalidated)]))
            || (Consume(c, s, id, nonce, now).Success? && after == Consume(c, s, id, nonce, now).value.0)
  {
  }

  lemma SubmitKeeps(c: Crypto, s: State, id: Bytes32, nonce: Bytes32, manifest: Option<Manifest>, now: u64)
    requires StateOk(c, s) && id in s.authorizations
    ensures StateOk(c, Submit(c, s, id, nonce, manifest, now).0)
            && Continues(s, Submit(c, s, id, nonce, manifest, now).0)
  {
    SubmitOutcome(c, s, id, nonce, manifest, now);
    if s.authorizations[id].status == Active {
      WithdrawKeeps(c, s, id);
    }
    if Consume(c, s, id, nonce, now).Success? {
      ConsumeKeeps(c, s, id, nonce, now);
    }
  }

  lemma SimulateOutcome(c: Crypto, s: State, id: Bytes32, nonce: Bytes32, manifest: Option<Manifest>, now: u64)
    ensures var (read, after) := (Settled(s, Read(s, id, now)), Simulate(c, s, id, nonce, manifest, now).0);
            after == read || (id in read.authorizations && after == Submit(c, read, id, nonce, manifest, now).0)
  {
  }

  lemma SimulateKeeps(c: Crypto, s: State, id: Bytes32, nonce: Bytes32, manifest: Option<Manifest>, now: u64)
    requires StateOk(c, s)
    ensures StateOk(c, Simulate(c, s, id, nonce, manifest, now).0)
            && Continues(s, Simulate(c, s, id, nonce, manifest, now).0)
  {
    var read := Settled(s, Read(s, id, now));
    ReadKeeps(c, s, id, now);
    SimulateOutcome(c, s, id, nonce, manifest, now);
    if id in read.authorizations {
      SubmitKeeps(c, read, id, nonce, manifest, now);
      ContinuesTransitive(s, read, Submit(c, read, id, nonce, manifest, now).0);
    }
  }

  lemma AuditKeeps(c: Crypto, s: State, fact: Audit.Fact)
    requires StateOk(c, s)
    ensures StateOk(c, AuditOther(c, s, fact)) && Continues(s, AuditOther(c, s, fact))
  {
    if Audit.Append(c, s.audit, fact).Success? {
      AppendCounts(c, s.audit, fact, ISSUED);
      AppendCounts(c, s.audit, fact, RECORDED);
    }
  }

  lemma WithdrawalKeeps(c: Crypto, s: State, column: Column, value: Bytes32, status: Status, now: u64)
    requires StateOk(c, s)
    ensures StateOk(c, Withdraw(s, column, value, status, now)) && Continues(s, Withdraw(s, column, value, status, now))
  {
    if status != Active && status != Consumed {
      UpdateQuietens(s.authorizations, (a: Authorization) => ColumnOf(a, column) == value, status);
      QuieteningKeeps(c, s, Withdraw(s, column, value, status, now).authorizations);
    }
  }

  lemma ContinuesReflexive(s: State)
    ensures Continues(s, s)
  {
  }

  lemma OtherEventKeeps(c: Crypto, s: State, event: Event)
    requires StateOk(c, s) && !event.Issues? && !event.Simulates?
    ensures StateOk(c, Apply(c, s, event)) && Continues(s, Apply(c, s, event))
  {
    match event
    case Reads(id, now) => ReadKeeps(c, s, id, now);
    case Invalidates(column, value, status, now) => WithdrawalKeeps(c, s, column, value, status, now);
    case Audits(fact) => AuditKeeps(c, s, fact);
  }

  lemma ApplyKeeps(c: Crypto, s: State, event: Event)
    requires StateOk(c, s)
    ensures StateOk(c, Apply(c, s, event)) && Continues(s, Apply(c, s, event))
  {
    match event
    case Issues(evidence, now) => IssueKeeps(c, s, evidence, now);
    case Simulates(id, nonce, manifest, now) => SimulateKeeps(c, s, id, nonce, manifest, now);
    case _ => OtherEventKeeps(c, s, event);
  }

  /** Over every run: one active authorization and one receipt per manifest at most, submission nonces all different,
      a receipt for exactly the consumed authorizations, and as many rows as audit events of each kind. */
  lemma {:induction false} RunOk(c: Crypto, events: seq<Event>)
    ensures StateOk(c, Run(c, events))
  {
    if events != [] {
      RunOk(c, events[..|events| - 1]);
      ApplyKeeps(c, Run(c, events[..|events| - 1]), events[|events| - 1]);
    }
  }

  lemma RunGoesOn(c: Crypto, events: seq<Event>, more: seq<Event>)
    requires more != []
    ensures Run(c, events + more) == Apply(c, Run(c, events + more[..|more| - 1]), more[|more| - 1])
  {
    assert (events + more)[..|events + more| - 1] == events + more[..|more| - 1];
  }

  /** Nothing inactive ever revives, and no receipt is ever lost or changed. */
  lemma {:induction false} RunContinues(c: Crypto, events: seq<Event>, more: seq<Event>)
    ensures Continues(Run(c, events), Run(c, events + more))
  {
    if more == [] {
      assert events + more == events;
      ContinuesReflexive(Run(c, events));
    } else {
      var before := Run(c, events + more[..|more| - 1]);
      RunContinues(c, events, more[..|more| - 1]);
      RunOk(c, events + more[..|more| - 1]);
      ApplyKeeps(c, before, more[|more| - 1]);
      RunGoesOn(c, events, more);
      ContinuesTransitive(Run(c, events), before, Run(c, events + more));
    }
  }

  /** Once a manifest has a receipt, none of its authorizations is active in any continuation of the run. */
  lemma ReceiptRulesOutActivity(c: Crypto, events: seq<Event>, more: seq<Event>, manifest: Bytes32, id: Bytes32)
    requires manifest in Run(c, events).receipts && id in Run(c, events + more).authorizations
    requires Run(c, events + more).authorizations[id].manifestId == manifest
    ensures Run(c, events + more).authorizations[id].status != Active
    ensures manifest in Run(c, events + more).receipts
            && Run(c, events + more).receipts[manifest] == Run(c, events).receipts[manifest]
  {
    RunContinues(c, events, more);
    RunOk(c, events + more);
    assert RowOk(Run(c, events + more).authorizations, Run(c, events + more).receipts, id);
  }

  /** Repeating a recorded submission returns its receipt and changes nothing, whatever has happened to the manifest. */
  lemma SubmissionIsIdempotent(c: Crypto, s: State, id: Bytes32, nonce: Bytes32, manifest: Option<Manifest>, now: u64,
                               m: Bytes32)
    requires StateOk(c, s) && m in s.receipts && SameSubmission(s.receipts[m], id, nonce)
    ensures Simulate(c, s, id, nonce, manifest, now) ==
            (s, if CheckTime(now).Fail? then Failure(CheckTime(now).error) else Success(s.receipts[m]))
  {
    assert ReceiptOk(s.authorizations, s.receipts, m);
  }

  lemma ConsumeRecords(c: Crypto, s: State, id: Bytes32, nonce: Bytes32, now: u64)
    requires id in s.authorizations && Consume(c, s, id, nonce, now).Success?
    ensures var (after, r) := Consume(c, s, id, nonce, now).value;
            && r.manifestId in after.receipts && after.receipts[r.manifestId] == r && SameSubmission(r, id, nonce)
  {
  }

  lemma SubmitRecords(c: Crypto, s: State, id: Bytes32, nonce: Bytes32, manifest: Option<Manifest>, now: u64)
    requires id in s.authorizations && Submit(c, s, id, nonce, manifest, now).1.Success?
    requires ReceiptsOk(s.authorizations, s.receipts)
    ensures var (after, r) := Submit(c, s, id, nonce, manifest, now);
            && r.value.manifestId in after.receipts && after.receipts[r.value.manifestId] == r.value
            && SameSubmission(r.value, id, nonce)
  {
    if s.authorizations[id].manifestId in s.receipts {
      assert ReceiptOk(s.authorizations, s.receipts, s.authorizations[id].manifestId);
    }
    if Consume(c, s, id, nonce, now).Success? {
      ConsumeRecords(c, s, id, nonce, now);
    }
  }

  /** A submission that succeeds leaves exactly this receipt for its manifest and nonce. */
  lemma SubmissionRecords(c: Crypto, s: State, id: Bytes32, nonce: Bytes32, manifest: Option<Manifest>, now: u64)
    requires StateOk(c, s) && Simulate(c, s, id, nonce, manifest, now).1.Success?
    ensures var (after, r) := Simulate(c, s, id, nonce, manifest, now);
            && r.value.manifestId in after.receipts && after.receipts[r.value.manifestId] == r.value
            && SameSubmission(r.value, id, nonce)
  {
    ReadKeeps(c, s, id, now);
    SubmitRecords(c, Settled(s, Read(s, id, now)), id, nonce, manifest, now);
  }

  /** What a row's own fields say its id is the hash of. */
  function OwnPreimage(a: Authorization): Bytes {
    IdPreimage(a.manifestId, a.recheckId, a.target.bundleCommitment, a.target.approvalSetHash, a.issuedAt, a.expiresAt)
  }

  /** Every row is filed under the id of its own fields. */
  ghost predicate Filed(c: Crypto, rows: map<Bytes32, Authorization>) {
    forall i :: i in rows ==> i == c.sha256(OwnPreimage(rows[i]))
  }

  lemma InsertedRows(c: Crypto, s: State, m: Manifest, id: Bytes32, now: u64, end: u64)
    ensures var (after, r) := InsertAndRead(c, s, m, id, now, end);
            && (forall i :: i in after.authorizations && i !in s.authorizations ==>
                  i == id && SameGrant(NewRow(m, now, end), after.authorizations[i]))
            && (r.Success? ==> r.value.0 == id && id in after.authorizations && after.authorizations[id] == r.value.1)
            && (r.Success? && now < end ==> r.value.1.status == Active)
  {
  }

  lemma IssuedRows(c: Crypto, s: State, e: Evidence, now: u64, i: Bytes32)
    requires i in Issue(c, s, e, now).0.authorizations && i !in s.authorizations
    ensures CheckEvidence(s, e).Success? && ExpiryOf(CheckEvidence(s, e).value, now).Success?
    ensures var (m, end) := (CheckEvidence(s, e).value, ExpiryOf(CheckEvidence(s, e).value, now).value);
            && i == AuthorizationId(c, m, now, end)
            && SameGrant(NewRow(m, now, end), Issue(c, s, e, now).0.authorizations[i])
  {
    IssueOutcome(c, s, e, now);
    var m, end := CheckEvidence(s, e).value, ExpiryOf(CheckEvidence(s, e).value, now).value;
    var id := AuthorizationId(c, m, now, end);
    InsertedRows(c, ExpireRow(s, id, now), m, id, now, end);
  }

  lemma SubmitAddsNoRow(c: Crypto, s: State, id: Bytes32, nonce: Bytes32, manifest: Option<Manifest>, now: u64)
    ensures Simulate(c, s, id, nonce, manifest, now).0.authorizations.Keys == s.authorizations.Keys
  {
    SimulateOutcome(c, s, id, nonce, manifest, now);
    var read := Settled(s, Read(s, id, now));
    if id in read.authorizations {
      SubmitOutcome(c, read, id, nonce, manifest, now);
    }
  }

  /** Only an issue adds a row. */
  lemma OnlyIssuesAdd(c: Crypto, s: State, event: Event)
    requires !event.Issues?
    ensures Apply(c, s, event).authorizations.Keys == s.authorizations.Keys
  {
    if event.Simulates? {
      SubmitAddsNoRow(c, s, event.id, event.nonce, event.manifest, event.now);
    }
  }

  lemma ApplyFiles(c: Crypto, s: State, event: Event)
    requires StateOk(c, s) && Filed(c, s.authorizations)
    ensures Filed(c, Apply(c, s, event).authorizations)
  {
    ApplyKeeps(c, s, event);
    var rows := Apply(c, s, event).authorizations;
    forall i | i in rows ensures i == c.sha256(OwnPreimage(rows[i])) {
      if i in s.authorizations {
        assert SameGrant(s.authorizations[i], rows[i]);
      } else {
        if !event.Issues? {
          OnlyIssuesAdd(c, s, event);
        }
        IssuedRows(c, s, event.evidence, event.now, i);
      }
    }
  }

  /** In every reachable store, a row is filed under the id of its own fields. */
  lemma {:induction false} RunFiled(c: Crypto, events: seq<Event>)
    ensures Filed(c, Run(c, events).authorizations)
  {
    if events != [] {
      var front := events[..|events| - 1];
      RunOk(c, front);
      RunFiled(c, front);
      ApplyFiles(c, Run(c, front), events[|events| - 1]);
    }
  }

  lemma IdPreimageInjective(m1: Bytes32, r1: Bytes32, b1: Bytes32, a1: Bytes32, i1: u64, e1: u64,
                            m2: Bytes32, r2: Bytes32, b2: Bytes32, a2: Bytes32, i2: u64, e2: u64)
    requires IdPreimage(m1, r1, b1, a1, i1, e1) == IdPreimage(m2, r2, b2, a2, i2, e2)
    ensures m1 == m2 && r1 == r2 && b1 == b2 && a1 == a2 && i1 == i2 && e1 == e2
  {
    var d, v := EXECUTION_AUTHORIZATION_DOMAIN, U16(PROTOCOL_VERSION);
    Split(d, v + (m1 + (r1 + (b1 + (a1 + (U64(i1) + U64(e1)))))), d,
          v + (m2 + (r2 + (b2 + (a2 + (U64(i2) + U64(e2)))))));
    Split(v, m1 + (r1 + (b1 + (a1 + (U64(i1) + U64(e1))))), v, m2 + (r2 + (b2 + (a2 + (U64(i2) + U64(e2))))));
    Split(m1, r1 + (b1 + (a1 + (U64(i1) + U64(e1)))), m2, r2 + (b2 + (a2 + (U64(i2) + U64(e2)))));
    Split(r1, b1 + (a1 + (U64(i1) + U64(e1))), r2, b2 + (a2 + (U64(i2) + U64(e2))));
    Split(b1, a1 + (U64(i1) + U64(e1)), b2, a2 + (U64(i2) + U64(e2)));
    Split(a1, U64(i1) + U64(e1), a2, U64(i2) + U64(e2));
    Split(U64(i1), U64(e1), U64(i2), U64(e2));
    U64Injective(i1, i2);
    U64Injective(e1, e2);
  }

  lemma IssuedRow(c: Crypto, s: State, e: Evidence, now: u64)
    requires Issue(c, s, e, now).1.Success?
    ensures e.manifest.Some? && ExpiryOf(e.manifest.value, now).Success?
    ensures var (after, r) := Issue(c, s, e, now);
            && r.value.0 in after.authorizations && after.authorizations[r.value.0] == r.value.1
            && r.value.1.status == Active
            && r.value.0 == AuthorizationId(c, e.manifest.value, now, ExpiryOf(e.manifest.value, now).value)
  {
    IssueOutcome(c, s, e, now);
    ManifestUnreceipted(s, e);
    var end := ExpiryOf(e.manifest.value, now).value;
    var id := AuthorizationId(c, e.manifest.value, now, end);
    InsertedRows(c, ExpireRow(s, id, now), e.manifest.value, id, now, end);
  }

  /** The grant an issue of a manifest is to make. */
  predicate Grants(a: Authorization, m: Manifest, now: u64) {
    && a.manifestId == m.id && a.recheckId == m.recheckId
    && a.target.bundleCommitment == m.target.bundleCommitment && a.target.approvalSetHash == m.target.approvalSetHash
    && a.issuedAt == now && now < a.expiresAt <= now + EXECUTION_AUTHORIZATION_TTL_SECONDS && a.expiresAt <= m.expiresAt
  }

  lemma FiledGrants(c: Crypto, id: Bytes32, a: Authorization, m: Manifest, now: u64, end: u64)
    requires ExpiryOf(m, now) == Success(end)
    requires id == c.sha256(OwnPreimage(a)) && id == AuthorizationId(c, m, now, end)
    requires CollisionFree(c.sha256, {OwnPreimage(a), ManifestPreimage(m, now, end)})
    ensures Grants(a, m, now)
  {
    var inputs := {OwnPreimage(a), ManifestPreimage(m, now, end)};
    NoCollision(c.sha256, inputs, OwnPreimage(a), ManifestPreimage(m, now, end));
    IdPreimageInjective(a.manifestId, a.recheckId, a.target.bundleCommitment, a.target.approvalSetHash, a.issuedAt,
                        a.expiresAt, m.id, m.recheckId, m.target.bundleCommitment, m.target.approvalSetHash, now, end);
  }

  /** After any run, what an issue returns is active and the asked manifest's own: issued now, expiring within five
      seconds and not after the manifest. Or its own fields and the manifest's are two strings that collide. */
  lemma IssuedIsActive(c: Crypto, events: seq<Event>, e: Evidence, now: u64)
    requires Issue(c, Run(c, events), e, now).1.Success?
    ensures e.manifest.Some? && ExpiryOf(e.manifest.value, now).Success?
    ensures var (after, r) := Issue(c, Run(c, events), e, now);
            var (m, end) := (e.manifest.value, ExpiryOf(e.manifest.value, now).value);
            && r.value.0 in after.authorizations && after.authorizations[r.value.0] == r.value.1
            && r.value.1.status == Active
            && (CollisionFree(c.sha256, {OwnPreimage(r.value.1), ManifestPreimage(m, now, end)}) ==>
                Grants(r.value.1, m, now))
  {
    var s := Run(c, events);
    IssuedRow(c, s, e, now);
    RunFiled(c, events + [Issues(e, now)]);
    assert (events + [Issues(e, now)])[..|events|] == events;
    var ((id, a), m, end) := (Issue(c, s, e, now).1.value, e.manifest.value, ExpiryOf(e.manifest.value, now).value);
    if CollisionFree(c.sha256, {OwnPreimage(a), ManifestPreimage(m, now, end)}) {
      FiledGrants(c, id, a, m, now, end);
    }
  }

  // ---------------------------------------------------------------- the store

  class AuthorizationStore {
    const c: Crypto
    var rows: map<Bytes32, Authorization>
    var receipts: map<Bytes32, Receipt>
    var audit: Audit.Log

    ghost function Contents(): State
      reads this
    {
      State(rows, receipts, audit)
    }

    constructor (c: Crypto)
      ensures this.c == c && Contents() == Start(c)
    {
      this.c := c;
      rows, receipts, audit := map[], map[], Audit.Log([], 0, Audit.GenesisHash(c));
    }

    /** Reads an authorization, expiring it first if its time has come. */
    method ExecutionAuthorization(id: Bytes32, now: u64) returns (r: Result<Option<Authorization>, AuthError>)
      modifies this
      ensures match Read(old(Contents()), id, now)
              case Failure(error) => r == Failure(error) && Contents() == old(Contents())
              case Success(after) => Contents() == after && r == Success(if id in rows then Some(rows[id]) else None)
    {
      var fits := CheckTime(now);
      :- fits;
      if id in rows && rows[id].status == Active && rows[id].expiresAt <= now {
        rows := rows[id := rows[id].(status := Expired)];
      }
      return Success(if id in rows then Some(rows[id]) else None);
    }

    method InvalidateExecutionAuthorizations(column: Column, value: Bytes32, status: Status, now: u64)
      returns (r: Outcome<AuthError>)
      modifies this
      ensures match Invalidate(old(Contents()), column, value, status, now)
              case Failure(error) => r == Fail(error) && Contents() == old(Contents())
              case Success(after) => r == Pass && Contents() == after
    {
      if CheckTime(now).Fail? {
        return CheckTime(now);
      }
      rows := UpdateActive(rows, (a: Authorization) => ColumnOf(a, column) == value, status);
      return Pass;
    }

    method IssueExecutionAuthorization(e: Evidence, now: u64) returns (r: Result<(Bytes32, Authorization), AuthError>)
      modifies this
      ensures (Contents(), r) == Issue(c, old(Contents()), e, now)
    {
      var m :- CheckEvidence(State(rows, receipts, audit), e);
      var end :- ExpiryOf(m, now);
      var id := AuthorizationId(c, m, now, end);
      var existing :- ExecutionAuthorization(id, now);
      if existing.Some? && existing.value.status == Active {
        return Success((id, existing.value));
      }
      :- InsertAuthorization(m, id, now, end);
      var issued := ExecutionAuthorization(id, now);
      return match issued
        case Success(Some(a)) => Success((id, a))
        case Success(None) => Failure(Corrupt("new execution authorization was not found"))
        case Failure(error) => Failure(error);
    }

    /** Supersede, insert, record: committed together. */
    method InsertAuthorization(m: Manifest, id: Bytes32, now: u64, end: u64) returns (r: Outcome<AuthError>)
      modifies this
      ensures var inserted := Insert(c, old(Contents()), m, id, now, end);
              if inserted.Failure? then r == Fail(inserted.error) && Contents() == old(Contents())
              else r == Pass && Contents() == inserted.value
    {
      if !RowFits(m.target, now, end) {
        return Fail(Database("CHECK constraint or range on authorizations"));
      }
      if id in rows {
        return Fail(Database("UNIQUE constraint on authorizations"));
      }
      var appended := Audit.Append(c, audit, Audit.Fact(ISSUED, id, m.target.bundleCommitment, AUTHORIZED, now));
      if appended.Failure? {
        return Fail(AuditFailure(appended.error));
      }
      var tx := UpdateActive(rows, (a: Authorization) => a.manifestId == m.id, Superseded);
      tx := tx[id := NewRow(m, now, end)];
      rows, audit := tx, appended.value;
      return Pass;
    }

    method SimulateExecutionSubmission(id: Bytes32, nonce: Bytes32, manifest: Option<Manifest>, now: u64)
      returns (r: Result<Receipt, AuthError>)
      modifies this
      ensures (Contents(), r) == Simulate(c, old(Contents()), id, nonce, manifest, now)
    {
      var found :- ExecutionAuthorization(id, now);
      if found.None? {
        return Failure(Invalid("execution authorization was not found"));
      }
      r := SubmitAuthorization(id, nonce, manifest, now);
    }

    /** The submission of an authorization that was just read. */
    method SubmitAuthorization(id: Bytes32, nonce: Bytes32, manifest: Option<Manifest>, now: u64)
      returns (r: Result<Receipt, AuthError>)
      requires id in rows
      modifies this
      ensures (Contents(), r) == Submit(c, old(Contents()), id, nonce, manifest, now)
    {
      var a := rows[id];
      if a.manifestId in receipts {
        var existing := receipts[a.manifestId];
        if existing.authorizationId == id && existing.nonce == nonce {
          return Success(existing);
        }
        return Failure(Invalid("execution manifest was already consumed by another simulated submission"));
      }
      r := SubmitUnreceipted(id, nonce, manifest, now);
    }

    /** The submission of an authorization whose manifest has no receipt yet. */
    method SubmitUnreceipted(id: Bytes32, nonce: Bytes32, manifest: Option<Manifest>, now: u64)
      returns (r: Result<Receipt, AuthError>)
      requires id in rows && rows[id].manifestId !in receipts
      modifies this
      ensures (Contents(), r) == Submit(c, old(Contents()), id, nonce, manifest, now)
    {
      var a := rows[id];
      if NonceUsed(receipts, nonce) {
        return Failure(Invalid("submission nonce was already used by another simulated submission"));
      }
      if a.status != Active {
        return Failure(Invalid("execution authorization is not active"));
      }
      r := SubmitToManifest(id, nonce, manifest, now);
    }

    /** The submission, once nothing stands in the way but the manifest. */
    method SubmitToManifest(id: Bytes32, nonce: Bytes32, manifest: Option<Manifest>, now: u64)
      returns (r: Result<Receipt, AuthError>)
      requires id in rows
      modifies this
      ensures (Contents(), r) == SubmitChecked(c, old(Contents()), id, nonce, manifest, now)
    {
      var a := rows[id];
      if manifest.None? {
        return Failure(Corrupt("authorization manifest was not found"));
      }
      if !manifest.value.verified || manifest.value.target.bundleCommitment != a.target.bundleCommitment {
        rows := rows[id := a.(status := Invalidated)];
        return Failure(Invalid("execution authorization was invalidated"));
      }
      r := ConsumeAuthorization(id, nonce, now);
    }

    /** Count, mark, insert the receipt, record: committed together. */
    method ConsumeAuthorization(id: Bytes32, nonce: Bytes32, now: u64) returns (r: Result<Receipt, AuthError>)
      requires id in rows
      modifies this
      ensures var consumed := Consume(c, old(Contents()), id, nonce, now);
              if consumed.Failure? then r == Failure(consumed.error) && Contents() == old(Contents())
              else r == Success(consumed.value.1) && Contents() == consumed.value.0
    {
      var a := rows[id];
      if a.status != Active || a.submissions != 0 {
        return Failure(Invalid("execution authorization was already consumed"));
      }
      if now > MAX_PROTOCOL_U64 {
        return Failure(Invalid("sqlite u64"));
      }
      var receipt := Receipt(ReceiptId(c, id, a, nonce, now), id, a.manifestId, a.target.bundleCommitment, nonce, now);
      if !ReceiptFits(receipts, receipt) {
        return Failure(Database("UNIQUE constraint on receipts"));
      }
      var appended :=
          Audit.Append(c, audit, Audit.Fact(RECORDED, receipt.id, a.target.bundleCommitment, RECORDED, now));
      if appended.Failure? {
        return Failure(AuditFailure(appended.error));
      }
      rows := rows[id := a.(submissions := a.submissions + 1, lastSimulatedAt := Some(now), status := Consumed)];
      receipts := receipts[a.manifestId := receipt];
      audit := appended.value;
      return Success(receipt);
    }
  }
}
