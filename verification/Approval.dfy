/** Challenge approvals: signed statements, their canonical form, and the two-approver quorum over a preparation. */
module Approval {
  import opened ByteStrings
  import opened Protocol
  import opened Encoding
  import opened Watchtower

  const APPROVAL_STATEMENT_DOMAIN: Bytes := Ascii("XHUB_CHALLENGE_APPROVAL_V3_6")
  const APPROVAL_PREPARATION_DOMAIN: Bytes := Ascii("XHUB_CHALLENGE_PREPARATION_V3_6")

  datatype ApprovalError = Invalid(reason: string) | Corrupt(cause: ProtocolError)

  datatype Decision = Approve | Reject

  /** What an approval is about: the fields of a preparation it repeats. */
  datatype Subject = Subject(
    closingCoinId: Bytes32, fundingCoinId: Bytes32, feeCoinId: Bytes32, reportHash: Bytes32, bundleCommitment: Bytes32,
    peakHeight: u64, peakHeaderHash: Bytes32, deadline: u64)

  datatype Statement = Statement(
    protocolVersion: u16, preparationId: Bytes32, subject: Subject, approverId: Bytes, domain: Bytes, key: Bytes48,
    decision: Decision, issuedAt: u64, expiresAt: u64, nonce: Bytes32)

  datatype SignedApproval = SignedApproval(statement: Statement, signature: Bytes96)

  datatype RowStatus = Active | Expired | Revoked

  datatype Row = Row(approval: SignedApproval, status: RowStatus)

  datatype PreparationStatus =
    OfflineVerified | AwaitingApproval | PartiallyApproved | DualApproved | RecheckRequired | InvalidatedChange

  datatype Preparation = Preparation(subject: Subject, preparedAt: u64, status: PreparationStatus)

  /** Preparations by closing coin; approvals by preparation and approver. */
  datatype State = State(preparations: map<Bytes32, Preparation>, rows: map<(Bytes32, Bytes), Row>)

  datatype Verdict = AwaitingVerdict | PartialVerdict | DualVerdict | RevokedVerdict

  datatype Report = Report(preparationId: Bytes32, verdict: Verdict, approverCount: nat, domainCount: nat)

  // ---------------------------------------------------------------- the canonical statement

  function ReadText(c: Crypto, s: Bytes): Parsed<Bytes> {
    var (length, s1) :- ReadU16(s);
    var (text, s2) :- ReadFixed(s1, length);
    if ValidName(c, text) then Ok(text, s2) else Bad(IntegerRange("persisted approval text"))
  }

  function DecisionByte(d: Decision): byte {
    match d case Approve => 1 case Reject => 2
  }

  function ReadDecision(s: Bytes): Parsed<Decision> {
    var (tag, rest) :- ReadU8(s);
    if tag == 1 then Ok(Approve, rest) else if tag == 2 then Ok(Reject, rest) else Bad(InvalidOption(tag))
  }

  /** The ten fields before the texts, and the seven from the texts on. */
  datatype Head = Head(protocolVersion: u16, preparationId: Bytes32, subject: Subject)
  datatype Body = Body(approverId: Bytes, domain: Bytes, key: Bytes48, decision: Decision, issuedAt: u64,
                       expiresAt: u64, nonce: Bytes32)

  function HeadOf(s: Statement): Head {
    Head(s.protocolVersion, s.preparationId, s.subject)
  }

  function BodyOf(s: Statement): Body {
    Body(s.approverId, s.domain, s.key, s.decision, s.issuedAt, s.expiresAt, s.nonce)
  }

  function StatementOf(h: Head, b: Body): Statement {
    Statement(h.protocolVersion, h.preparationId, h.subject, b.approverId, b.domain, b.key, b.decision, b.issuedAt,
              b.expiresAt, b.nonce)
  }

  function HeadThen(h: Head, tail: Bytes): Bytes {
    var x := h.subject;
    U16(h.protocolVersion) + (h.preparationId + (x.closingCoinId + (x.fundingCoinId + (x.feeCoinId + (x.reportHash + (
    x.bundleCommitment + (U64(x.peakHeight) + (x.peakHeaderHash + (U64(x.deadline) + tail)))))))))
  }

  function EncodeBody(b: Body): Bytes
    requires |b.approverId| < 0x1_0000 && |b.domain| < 0x1_0000
  {
    U16(|b.approverId|) + (b.approverId + (U16(|b.domain|) + (b.domain + (b.key + ([DecisionByte(b.decision)] + (
    U64(b.issuedAt) + (U64(b.expiresAt) + (b.nonce + []))))))))
  }

  predicate Encodable(s: Statement) {
    |s.approverId| < 0x1_0000 && |s.domain| < 0x1_0000
  }

  function EncodeStatement(s: Statement): Bytes
    requires Encodable(s)
  {
    HeadThen(HeadOf(s), EncodeBody(BodyOf(s)))
  }

  function ParseHead(s0: Bytes): Parsed<Head> {
    var (version, s1) :- ReadU16(s0);
    var (preparation, s2) :- Read32(s1);
    var (closing, s3) :- Read32(s2);
    var (funding, s4) :- Read32(s3);
    var (fee, s5) :- Read32(s4);
    var (report, s6) :- Read32(s5);
    var (bundle, s7) :- Read32(s6);
    var (height, s8) :- ReadU64(s7);
    var (header, s9) :- Read32(s8);
    var (deadline, s10) :- ReadU64(s9);
    Ok(Head(version, preparation, Subject(closing, funding, fee, report, bundle, height, header, deadline)), s10)
  }

  function ParseBody(c: Crypto, s0: Bytes): Parsed<Body> {
    var (approver, s1) :- ReadText(c, s0);
    var (domain, s2) :- ReadText(c, s1);
    var (key, s3) :- Read48(s2);
    var (decision, s4) :- ReadDecision(s3);
    var (issued, s5) :- ReadU64(s4);
    var (expires, s6) :- ReadU64(s5);
    var (nonce, s7) :- Read32(s6);
    Ok(Body(approver, domain, key, decision, issued, expires, nonce), s7)
  }

  /** `from_canonical_bytes`. */
  function DecodeStatement(c: Crypto, s: Bytes): Result<Statement, ProtocolError> {
    var head := ParseHead(s);
    if head.Bad? then Failure(head.error) else
    var body :- Finish(ParseBody(c, head.rest));
    Success(StatementOf(head.value, body))
  }

  lemma TextRoundTrip(c: Crypto, text: Bytes, tail: Bytes)
    requires ValidName(c, text)
    ensures ReadText(c, U16(|text|) + (text + tail)) == Ok(text, tail)
  {
    U16RoundTrip(|text|, text + tail);
    TakesWhole(text, tail);
  }

  lemma DecisionRoundTrip(d: Decision, tail: Bytes)
    ensures ReadDecision([DecisionByte(d)] + tail) == Ok(d, tail)
  {
    TakesWhole([DecisionByte(d)], tail);
  }

  lemma HeadRoundTrip(h: Head, tail: Bytes)
    ensures ParseHead(HeadThen(h, tail)) == Ok(h, tail)
  {
    PrimitiveRoundTrips();
  }

  lemma BodyRoundTrip(c: Crypto, b: Body)
    requires ValidName(c, b.approverId) && ValidName(c, b.domain)
    ensures ParseBody(c, EncodeBody(b)) == Ok(b, [])
  {
    var s6 := b.nonce + [];
    var s5 := U64(b.expiresAt) + s6;
    var s4 := U64(b.issuedAt) + s5;
    var s3 := [DecisionByte(b.decision)] + s4;
    var s2 := b.key + s3;
    var s1 := U16(|b.domain|) + (b.domain + s2);
    TextRoundTrip(c, b.approverId, s1);
    TextRoundTrip(c, b.domain, s2);
    Read48RoundTrip(b.key, s3);
    DecisionRoundTrip(b.decision, s4);
    U64RoundTrip(b.issuedAt, s5);
    U64RoundTrip(b.expiresAt, s6);
    Read32RoundTrip(b.nonce, []);
  }

  /** A statement with valid names decodes back to itself from its canonical bytes. */
  lemma StatementRoundTrip(c: Crypto, s: Statement)
    requires ValidName(c, s.approverId) && ValidName(c, s.domain)
    ensures DecodeStatement(c, EncodeStatement(s)) == Success(s)
  {
    HeadRoundTrip(HeadOf(s), EncodeBody(BodyOf(s)));
    BodyRoundTrip(c, BodyOf(s));
  }

  lemma TextCanonical(c: Crypto, s: Bytes)
    requires ReadText(c, s).Ok?
    ensures ValidName(c, ReadText(c, s).value)
    ensures s == U16(|ReadText(c, s).value|) + (ReadText(c, s).value + ReadText(c, s).rest)
  {
    U16Canonical(s);
    var s1 := ReadU16(s).rest;
    assert s1 == s1[..ReadU16(s).value] + s1[ReadU16(s).value..];
  }

  lemma DecisionCanonical(s: Bytes)
    requires ReadDecision(s).Ok?
    ensures s == [DecisionByte(ReadDecision(s).value)] + ReadDecision(s).rest
  {
    assert s == [s[0]] + s[1..];
  }

  lemma HeadCanonical(s: Bytes)
    requires ParseHead(s).Ok?
    ensures s == HeadThen(ParseHead(s).value, ParseHead(s).rest)
  {
    PrimitivesCanonical();
  }

  lemma BodyCanonical(c: Crypto, s0: Bytes)
    requires ParseBody(c, s0).Ok? && ParseBody(c, s0).rest == []
    ensures ValidName(c, ParseBody(c, s0).value.approverId) && ValidName(c, ParseBody(c, s0).value.domain)
    ensures s0 == EncodeBody(ParseBody(c, s0).value)
  {
    TextCanonical(c, s0);
    var s1 := ReadText(c, s0).rest;
    TextCanonical(c, s1);
    var s2 := ReadText(c, s1).rest;
    Read48Canonical(s2);
    var s3 := Read48(s2).rest;
    DecisionCanonical(s3);
    var s4 := ReadDecision(s3).rest;
    U64Canonical(s4);
    var s5 := ReadU64(s4).rest;
    U64Canonical(s5);
    var s6 := ReadU64(s5).rest;
    Read32Canonical(s6);
  }

  /** Bytes that decode are the canonical bytes of what they decode to. */
  lemma StatementCanonical(c: Crypto, s: Bytes)
    requires DecodeStatement(c, s).Success?
    ensures Encodable(DecodeStatement(c, s).value) && s == EncodeStatement(DecodeStatement(c, s).value)
  {
    HeadCanonical(s);
    BodyCanonical(c, ParseHead(s).rest);
  }

  method DecodeText(c: Crypto, d: Decoder) returns (r: Result<Bytes, ProtocolError>)
    requires d.Valid()
    modifies d
    ensures d.Valid() && Decoded(r, ReadText(c, old(d.Rest())), d.Rest())
  {
    var length :- d.U16();
    var text :- d.Take(length);
    if !ValidName(c, text) {
      return Failure(IntegerRange("persisted approval text"));
    }
    return Success(text);
  }

  method DecodeHead(d: Decoder) returns (r: Result<Head, ProtocolError>)
    requires d.Valid()
    modifies d
    ensures d.Valid() && Decoded(r, ParseHead(old(d.Rest())), d.Rest())
  {
    var version :- d.U16();
    var preparation :- d.Take32();
    var closing :- d.Take32();
    var funding :- d.Take32();
    var fee :- d.Take32();
    var report :- d.Take32();
    var bundle :- d.Take32();
    var height :- d.U64();
    var header :- d.Take32();
    var deadline :- d.U64();
    return Success(Head(version, preparation,
                        Subject(closing, funding, fee, report, bundle, height, header, deadline)));
  }

  method DecodeBody(c: Crypto, d: Decoder) returns (r: Result<Body, ProtocolError>)
    requires d.Valid()
    modifies d
    ensures d.Valid() && Decoded(r, ParseBody(c, old(d.Rest())), d.Rest())
  {
    var approver :- DecodeText(c, d);
    var domain :- DecodeText(c, d);
    var key :- d.Take48();
    var tag :- d.U8();
    if tag != 1 && tag != 2 {
      return Failure(InvalidOption(tag));
    }
    var issued :- d.U64();
    var expires :- d.U64();
    var nonce :- d.Take32();
    return Success(Body(approver, domain, key, if tag == 1 then Approve else Reject, issued, expires, nonce));
  }

  /** `ApprovalStatement::from_canonical_bytes`, as the program runs it. */
  method StatementFromCanonicalBytes(c: Crypto, input: Bytes) returns (r: Result<Statement, ProtocolError>)
    ensures r == DecodeStatement(c, input)
    ensures r.Success? ==> Encodable(r.value) && input == EncodeStatement(r.value)
  {
    r := DecodeWhole(c, input);
    if r.Success? {
      StatementCanonical(c, input);
    }
  }

  method DecodeWhole(c: Crypto, input: Bytes) returns (r: Result<Statement, ProtocolError>)
    ensures r == DecodeStatement(c, input)
  {
    var d := new Decoder(input);
    var head :- DecodeHead(d);
    var body :- DecodeBody(c, d);
    :- d.Finish();
    return Success(StatementOf(head, body));
  }

  // ---------------------------------------------------------------- counting

  type RowKey = (Bytes32, Bytes)

  function PreparationId(c: Crypto, p: Preparation): Bytes32 {
    var x := p.subject;
    c.sha256(APPROVAL_PREPARATION_DOMAIN + (
      U16(PROTOCOL_VERSION) + (x.closingCoinId + (x.fundingCoinId + (x.feeCoinId + (
      x.reportHash + (x.bundleCommitment + (
      U64(x.peakHeight) + (x.peakHeaderHash + (U64(x.deadline) + U64(p.preparedAt)))))))))))
  }

  function SigningHash(c: Crypto, s: Statement): Bytes32
    requires Encodable(s)
  {
    c.sha256(APPROVAL_STATEMENT_DOMAIN + EncodeStatement(s))
  }

  function ActiveKeys(rows: map<RowKey, Row>, id: Bytes32): set<RowKey> {
    set k | k in rows && k.0 == id && rows[k].status == Active
  }

  /** The rows a status counts. */
  function Counting(rows: map<RowKey, Row>, id: Bytes32, now: u64): set<RowKey> {
    set k | k in rows && k.0 == id && rows[k].status == Active && rows[k].approval.statement.expiresAt > now
  }

  function Approvers(rows: map<RowKey, Row>, id: Bytes32, now: u64): set<Bytes> {
    set k | k in Counting(rows, id, now) :: k.1
  }

  function CountedDomains(rows: map<RowKey, Row>, id: Bytes32, now: u64): set<Bytes> {
    set k | k in Counting(rows, id, now) :: rows[k].approval.statement.domain
  }

  function Expire(rows: map<RowKey, Row>, id: Bytes32, now: u64): map<RowKey, Row> {
    map k | k in rows ::
      if k.0 == id && rows[k].status == Active && rows[k].approval.statement.expiresAt <= now
      then rows[k].(status := Expired) else rows[k]
  }

  function Revoke(rows: map<RowKey, Row>, closings: set<Bytes32>): map<RowKey, Row> {
    map k | k in rows ::
      if rows[k].status == Active && rows[k].approval.statement.subject.closingCoinId in closings
      then rows[k].(status := Revoked) else rows[k]
  }

  predicate ChainChanged(p: Preparation) {
    p.status == RecheckRequired || p.status == InvalidatedChange
  }

  function VerdictOf(p: Preparation, approvers: nat, domains: nat): Verdict {
    if ChainChanged(p) then RevokedVerdict
    else if approvers >= 2 && domains >= 2 then DualVerdict
    else if approvers == 1 && domains == 1 then PartialVerdict
    else AwaitingVerdict
  }

  function StatusFor(p: Preparation, v: Verdict): PreparationStatus {
    match v
    case DualVerdict => DualApproved case PartialVerdict => PartiallyApproved
    case AwaitingVerdict => AwaitingApproval case RevokedVerdict => p.status
  }

  /** `approval_status`: expire, count, and record the verdict on the preparation. */
  function ReadStatus(c: Crypto, s: State, closing: Bytes32, now: u64): (State, Result<Report, ApprovalError>) {
    if closing !in s.preparations then (s, Failure(Invalid("offline preparation was not found")))
    else if now > MAX_PROTOCOL_U64 then (s, Failure(Invalid("sqlite u64")))
    else
      var p := s.preparations[closing];
      var id := PreparationId(c, p);
      var rows := Expire(s.rows, id, now);
      var approvers, domains := |Approvers(rows, id, now)|, |CountedDomains(rows, id, now)|;
      var verdict := VerdictOf(p, approvers, domains);
      (State(s.preparations[closing := p.(status := StatusFor(p, verdict))], rows),
       Success(Report(id, verdict, approvers, domains)))
  }

  // ---------------------------------------------------------------- submitting

  /** The checks on the credential itself. */
  function CheckCredential(c: Crypto, a: SignedApproval, now: u64): Outcome<ApprovalError> {
    var s := a.statement;
    if !ValidName(c, s.approverId) || !ValidName(c, s.domain) then Fail(Invalid("approval name"))
    else if s.protocolVersion != PROTOCOL_VERSION then Fail(Invalid("approval protocol version mismatch"))
    else if s.decision != Approve then Fail(Invalid("a rejection cannot contribute to dual approval"))
    else if s.issuedAt > now || s.expiresAt <= now then Fail(Invalid("approval credential is not currently valid"))
    else if s.expiresAt <= s.issuedAt then Fail(Invalid("approval expiry must follow issuance"))
    else if VerifyHash(c, s.key, SigningHash(c, s), a.signature).Fail? then
      Fail(Invalid("approval signature is invalid"))
    else Pass
  }

  /** The checks against the preparation it names. */
  function CheckBinding(c: Crypto, s: State, a: SignedApproval): Outcome<ApprovalError> {
    var closing := a.statement.subject.closingCoinId;
    if closing !in s.preparations then Fail(Invalid("offline preparation was not found"))
    else if ChainChanged(s.preparations[closing]) then Fail(Invalid("offline preparation is not approvable"))
    else if a.statement.preparationId != PreparationId(c, s.preparations[closing])
         || a.statement.subject != s.preparations[closing].subject then
      Fail(Invalid("approval is not bound to the current offline preparation"))
    else Pass
  }

  predicate DomainTaken(rows: map<RowKey, Row>, id: Bytes32, domain: Bytes) {
    exists k :: k in ActiveKeys(rows, id) && rows[k].approval.statement.domain == domain
  }

  /** The unique columns: (preparation, key) and (preparation, nonce), whatever the status. */
  predicate RowFits(rows: map<RowKey, Row>, a: SignedApproval) {
    forall k :: k in rows && k.0 == a.statement.preparationId ==>
      rows[k].approval.statement.key != a.statement.key && rows[k].approval.statement.nonce != a.statement.nonce
  }

  /** Inserts the approval and reports the status it leads to. */
  function InsertApproval(c: Crypto, s: State, a: SignedApproval, now: u64): (State, Result<Report, ApprovalError>) {
    var k := (a.statement.preparationId, a.statement.approverId);
    if DomainTaken(s.rows, a.statement.preparationId, a.statement.domain) then
      (s, Failure(Invalid("a failure domain may only contribute one active approval")))
    else if a.statement.expiresAt > MAX_PROTOCOL_U64 then (s, Failure(Invalid("sqlite u64")))
    else if !RowFits(s.rows, a) then (s, Failure(Invalid("duplicate approval public key or nonce")))
    else ReadStatus(c, s.(rows := s.rows[k := Row(a, Active)]), a.statement.subject.closingCoinId, now)
  }

  /** What `submit_challenge_approval` does once the credential is bound and expired rows are marked. */
  function SubmitBound(c: Crypto, s: State, a: SignedApproval, now: u64): (State, Result<Report, ApprovalError>) {
    var k := (a.statement.preparationId, a.statement.approverId);
    var (read, current) := ReadStatus(c, s, a.statement.subject.closingCoinId, now);
    if k in s.rows then
      if s.rows[k].approval == a then (read, current)
      else (s, Failure(Invalid("approver already submitted a different credential for this preparation")))
    else if current.Failure? then (read, current)
    else if current.value.verdict == DualVerdict then
      (read, Failure(Invalid("offline preparation already has two active approvals")))
    else if current.value.verdict == RevokedVerdict then
      (read, Failure(Invalid("offline preparation is not approvable")))
    else InsertApproval(c, read, a, now)
  }

  function Submit(c: Crypto, s: State, a: SignedApproval, now: u64): (State, Result<Report, ApprovalError>) {
    var credential := CheckCredential(c, a, now);
    var binding := CheckBinding(c, s, a);
    if credential.Fail? then (s, Failure(credential.error))
    else if binding.Fail? then (s, Failure(binding.error))
    else if now > MAX_PROTOCOL_U64 then (s, Failure(Invalid("sqlite u64")))
    else SubmitBound(c, s.(rows := Expire(s.rows, a.statement.preparationId, now)), a, now)
  }

  // ---------------------------------------------------------------- what other components do

  function Fundeds(preparations: map<Bytes32, Preparation>, coin: Bytes32): set<Bytes32> {
    set closing | closing in preparations && preparations[closing].subject.fundingCoinId == coin
  }

  /** The statuses a change of the funding coin's chain view marks. */
  predicate Marked(status: PreparationStatus) {
    status == OfflineVerified || status == PartiallyApproved || status == DualApproved
  }

  datatype Event =
    | Submits(approval: SignedApproval, now: u64)
    | Reads(closing: Bytes32, now: u64)
    | Prepares(closing: Bytes32, preparation: Preparation)
    | ClosingChanges(closing: Bytes32)
    | FundingChanges(coin: Bytes32, status: PreparationStatus)

  function Apply(c: Crypto, s: State, event: Event): State {
    match event
    case Submits(approval, now) => Submit(c, s, approval, now).0
    case Reads(closing, now) => ReadStatus(c, s, closing, now).0
    case Prepares(closing, preparation) => State(s.preparations[closing := preparation], Revoke(s.rows, {closing}))
    case ClosingChanges(closing) =>
      State(if closing in s.preparations then
            s.preparations[closing := s.preparations[closing].(status := InvalidatedChange)] else s.preparations,
            Revoke(s.rows, {closing}))
    case FundingChanges(coin, status) =>
      State(map closing | closing in s.preparations ::
              if s.preparations[closing].subject.fundingCoinId == coin && Marked(s.preparations[closing].status)
              then s.preparations[closing].(status := status) else s.preparations[closing],
            Revoke(s.rows, Fundeds(s.preparations, coin)))
  }

  function Run(c: Crypto, events: seq<Event>): State {
    if events == [] then State(map[], map[]) else Apply(c, Run(c, events[..|events| - 1]), events[|events| - 1])
  }

  // ---------------------------------------------------------------- the invariant

  /** The rows are filed under what they approve and by whom. */
  ghost predicate RowOk(rows: map<RowKey, Row>, k: RowKey)
    requires k in rows
  {
    k == (rows[k].approval.statement.preparationId, rows[k].approval.statement.approverId)
  }

  ghost predicate RowsOk(rows: map<RowKey, Row>) {
    forall k {:trigger RowOk(rows, k)} :: k in rows ==> RowOk(rows, k)
  }

  /** The active approvals of a preparation: never more than two, no two of one failure domain. */
  ghost predicate QuorumOk(rows: map<RowKey, Row>, id: Bytes32) {
    && |ActiveKeys(rows, id)| <= 2
    && (forall i, j :: (i in ActiveKeys(rows, id) && j in ActiveKeys(rows, id)
                        && rows[i].approval.statement.domain == rows[j].approval.statement.domain) ==> i == j)
  }

  ghost predicate StateOk(s: State) {
    RowsOk(s.rows) && forall id {:trigger QuorumOk(s.rows, id)} :: QuorumOk(s.rows, id)
  }

  /** Rows stay, what they approve stays, and a row that stops counting never counts again. */
  ghost predicate Continues(a: map<RowKey, Row>, b: map<RowKey, Row>) {
    forall k :: k in a ==>
      && k in b && b[k].approval == a[k].approval && (a[k].status != Active ==> b[k].status == a[k].status)
  }

  /** Rows that only lose activity. */
  ghost predicate Quietens(a: map<RowKey, Row>, b: map<RowKey, Row>) {
    && b.Keys == a.Keys
    && (forall k :: k in a ==>
        b[k] == a[k] || (a[k].status == Active && b[k].approval == a[k].approval && b[k].status != Active))
  }

  lemma QuieteningKeepsQuorum(a: map<RowKey, Row>, b: map<RowKey, Row>, id: Bytes32)
    requires Quietens(a, b) && QuorumOk(a, id)
    ensures QuorumOk(b, id)
  {
    SubsetCount(ActiveKeys(b, id), ActiveKeys(a, id));
  }

  lemma QuieteningKeeps(preparations: map<Bytes32, Preparation>, s: State, rows: map<RowKey, Row>)
    requires StateOk(s) && Quietens(s.rows, rows)
    ensures StateOk(State(preparations, rows)) && Continues(s.rows, rows)
  {
    forall k | k in rows ensures RowOk(rows, k) {
      assert RowOk(s.rows, k);
    }
    forall id ensures QuorumOk(rows, id) {
      QuieteningKeepsQuorum(s.rows, rows, id);
    }
  }

  lemma ExpireQuietens(rows: map<RowKey, Row>, id: Bytes32, now: u64)
    ensures Quietens(rows, Expire(rows, id, now))
  {
  }

  lemma RevokeQuietens(rows: map<RowKey, Row>, closings: set<Bytes32>)
    ensures Quietens(rows, Revoke(rows, closings))
  {
  }

  /** Once expired rows are marked, what is counted is exactly what is active. */
  lemma ExpiredCounting(rows: map<RowKey, Row>, id: Bytes32, now: u64)
    ensures Counting(Expire(rows, id, now), id, now) == ActiveKeys(Expire(rows, id, now), id)
  {
  }

  /** Approvers and failure domains counted are both exactly the number of active approvals. */
  lemma CountsAgree(rows: map<RowKey, Row>, id: Bytes32, now: u64)
    requires QuorumOk(rows, id) && Counting(rows, id, now) == ActiveKeys(rows, id)
    ensures |Approvers(rows, id, now)| == |CountedDomains(rows, id, now)| == |ActiveKeys(rows, id)|
  {
    var s := ActiveKeys(rows, id);
    ImageSize(s, (k: RowKey) => k.1, Approvers(rows, id, now));
    ImageSize(s, (k: RowKey) => if k in rows then rows[k].approval.statement.domain
              else [], CountedDomains(rows, id, now));
  }

  lemma ReadKeeps(c: Crypto, s: State, closing: Bytes32, now: u64)
    requires StateOk(s)
    ensures StateOk(ReadStatus(c, s, closing, now).0) && Continues(s.rows, ReadStatus(c, s, closing, now).0.rows)
  {
    var after := ReadStatus(c, s, closing, now).0;
    if closing in s.preparations && now <= MAX_PROTOCOL_U64 {
      var id := PreparationId(c, s.preparations[closing]);
      ExpireQuietens(s.rows, id, now);
      QuieteningKeeps(after.preparations, s, Expire(s.rows, id, now));
    }
  }

  /** The reported status says exactly how many unexpired approvals are active: none, one or two; unless the chain
      changed. */
  lemma StatusIsExact(c: Crypto, s: State, closing: Bytes32, now: u64)
    requires StateOk(s) && ReadStatus(c, s, closing, now).1.Success?
    ensures closing in s.preparations
    ensures var p := s.preparations[closing];
            var (after, r) := ReadStatus(c, s, closing, now);
            var active := |ActiveKeys(after.rows, r.value.preparationId)|;
            && r.value.preparationId == PreparationId(c, p)
            && r.value.approverCount == r.value.domainCount == active <= 2
            && (r.value.verdict == RevokedVerdict <==> ChainChanged(p))
            && (!ChainChanged(p) ==>
                  && (r.value.verdict == DualVerdict <==> active == 2)
                  && (r.value.verdict == PartialVerdict <==> active == 1)
                  && (r.value.verdict == AwaitingVerdict <==> active == 0))
  {
    var id := PreparationId(c, s.preparations[closing]);
    var rows := Expire(s.rows, id, now);
    ReadKeeps(c, s, closing, now);
    ExpiredCounting(s.rows, id, now);
    assert QuorumOk(ReadStatus(c, s, closing, now).0.rows, id);
    CountsAgree(rows, id, now);
  }

  // ---------------------------------------------------------------- every operation keeps it

  lemma NewRowQuorum(rows: map<RowKey, Row>, k: RowKey, a: SignedApproval, id: Bytes32)
    requires QuorumOk(rows, id) && k !in rows
    requires id == k.0 ==> |ActiveKeys(rows, id)| <= 1 && !DomainTaken(rows, id, a.statement.domain)
    ensures QuorumOk(rows[k := Row(a, Active)], id)
  {
    var updated := rows[k := Row(a, Active)];
    if id == k.0 {
      assert ActiveKeys(updated, id) == ActiveKeys(rows, id) + {k};
      forall i | i in ActiveKeys(rows, id) ensures updated[i] == rows[i]
          && rows[i].approval.statement.domain != a.statement.domain {
      }
    } else {
      assert ActiveKeys(updated, id) == ActiveKeys(rows, id);
    }
  }

  /** A second active approval at most, of a failure domain of its own. */
  lemma NewRowKeeps(s: State, a: SignedApproval)
    requires StateOk(s) && (a.statement.preparationId, a.statement.approverId) !in s.rows
    requires |ActiveKeys(s.rows, a.statement.preparationId)| <= 1
    requires !DomainTaken(s.rows, a.statement.preparationId, a.statement.domain)
    ensures var rows := s.rows[(a.statement.preparationId, a.statement.approverId) := Row(a, Active)];
            StateOk(s.(rows := rows)) && Continues(s.rows, rows)
  {
    var k := (a.statement.preparationId, a.statement.approverId);
    var rows := s.rows[k := Row(a, Active)];
    forall j | j in rows ensures RowOk(rows, j) {
      if j != k {
        assert RowOk(s.rows, j);
      }
    }
    forall id ensures QuorumOk(rows, id) {
      assert QuorumOk(s.rows, id);
      NewRowQuorum(s.rows, k, a, id);
    }
  }

  lemma ContinuesTransitive(a: map<RowKey, Row>, b: map<RowKey, Row>, d: map<RowKey, Row>)
    requires Continues(a, b) && Continues(b, d)
    ensures Continues(a, d)
  {
  }

  lemma InsertKeeps(c: Crypto, s: State, a: SignedApproval, now: u64)
    requires StateOk(s) && (a.statement.preparationId, a.statement.approverId) !in s.rows
    requires |ActiveKeys(s.rows, a.statement.preparationId)| <= 1
    ensures StateOk(InsertApproval(c, s, a, now).0) && Continues(s.rows, InsertApproval(c, s, a, now).0.rows)
  {
    if !DomainTaken(s.rows, a.statement.preparationId, a.statement.domain) {
      var rows := s.rows[(a.statement.preparationId, a.statement.approverId) := Row(a, Active)];
      NewRowKeeps(s, a);
      ReadKeeps(c, s.(rows := rows), a.statement.subject.closingCoinId, now);
      ContinuesTransitive(s.rows, rows, ReadStatus(c, s.(rows := rows), a.statement.subject.closingCoinId, now).0.rows);
    }
  }

  lemma SameKeys(c: Crypto, s: State, closing: Bytes32, now: u64)
    ensures ReadStatus(c, s, closing, now).0.rows.Keys == s.rows.Keys
  {
  }

  /** A bound submission leaves the store, reads the status, or inserts after a status of at most one approval. */
  lemma SubmitBoundOutcome(c: Crypto, s: State, a: SignedApproval, now: u64)
    ensures var (read, current) := ReadStatus(c, s, a.statement.subject.closingCoinId, now);
            var after := SubmitBound(c, s, a, now).0;
            || after == s
            || after == read
            || (&& (a.statement.preparationId, a.statement.approverId) !in s.rows
                && current.Success? && current.value.verdict != DualVerdict && current.value.verdict != RevokedVerdict
                && after == InsertApproval(c, read, a, now).0)
  {
  }

  lemma OpenStatusHasRoom(c: Crypto, s: State, a: SignedApproval, now: u64)
    requires StateOk(s) && CheckBinding(c, s, a).Pass?
    requires var current := ReadStatus(c, s, a.statement.subject.closingCoinId, now).1;
             current.Success? && current.value.verdict != DualVerdict && current.value.verdict != RevokedVerdict
    ensures |ActiveKeys(ReadStatus(c, s, a.statement.subject.closingCoinId, now).0.rows, a.statement.preparationId)|
            <= 1
  {
    StatusIsExact(c, s, a.statement.subject.closingCoinId, now);
  }

  lemma SubmitBoundKeeps(c: Crypto, s: State, a: SignedApproval, now: u64)
    requires StateOk(s) && CheckBinding(c, s, a).Pass?
    ensures StateOk(SubmitBound(c, s, a, now).0) && Continues(s.rows, SubmitBound(c, s, a, now).0.rows)
  {
    var closing := a.statement.subject.closingCoinId;
    var (read, current) := ReadStatus(c, s, closing, now);
    var after := SubmitBound(c, s, a, now).0;
    SubmitBoundOutcome(c, s, a, now);
    ReadKeeps(c, s, closing, now);
    if after != s && after != read {
      SameKeys(c, s, closing, now);
      OpenStatusHasRoom(c, s, a, now);
      InsertKeeps(c, read, a, now);
      ContinuesTransitive(s.rows, read.rows, after.rows);
    }
  }

  lemma SubmitKeeps(c: Crypto, s: State, a: SignedApproval, now: u64)
    requires StateOk(s)
    ensures StateOk(Submit(c, s, a, now).0) && Continues(s.rows, Submit(c, s, a, now).0.rows)
  {
    var expired := s.(rows := Expire(s.rows, a.statement.preparationId, now));
    ExpireQuietens(s.rows, a.statement.preparationId, now);
    QuieteningKeeps(s.preparations, s, expired.rows);
    if CheckBinding(c, s, a).Pass? {
      assert CheckBinding(c, expired, a).Pass?;
      SubmitBoundKeeps(c, expired, a, now);
      ContinuesTransitive(s.rows, expired.rows, SubmitBound(c, expired, a, now).0.rows);
    }
  }

  lemma ApplyKeeps(c: Crypto, s: State, event: Event)
    requires StateOk(s)
    ensures StateOk(Apply(c, s, event)) && Continues(s.rows, Apply(c, s, event).rows)
  {
    var after := Apply(c, s, event);
    match event
    case Submits(approval, now) => SubmitKeeps(c, s, approval, now);
    case Reads(closing, now) => ReadKeeps(c, s, closing, now);
    case Prepares(closing, _) => RevokeQuietens(s.rows, {closing}); QuieteningKeeps(after.preparations, s, after.rows);
    case ClosingChanges(closing) =>
        RevokeQuietens(s.rows, {closing}); QuieteningKeeps(after.preparations, s, after.rows);
    case FundingChanges(coin, _) =>
      RevokeQuietens(s.rows, Fundeds(s.preparations, coin));
      QuieteningKeeps(after.preparations, s, after.rows);
  }

  /** In every reachable store the active approvals of any preparation are at most two, of different approvers and
      different failure domains. */
  lemma {:induction false} RunOk(c: Crypto, events: seq<Event>)
    ensures StateOk(Run(c, events))
  {
    if events != [] {
      RunOk(c, events[..|events| - 1]);
      ApplyKeeps(c, Run(c, events[..|events| - 1]), events[|events| - 1]);
    }
  }

  lemma ActiveApproversDiffer(c: Crypto, events: seq<Event>, id: Bytes32, i: RowKey, j: RowKey)
    requires i in ActiveKeys(Run(c, events).rows, id) && j in ActiveKeys(Run(c, events).rows, id) && i != j
    ensures Run(c, events).rows[i].approval.statement.approverId != Run(c, events).rows[j].approval.statement.approverId
    ensures Run(c, events).rows[i].approval.statement.domain != Run(c, events).rows[j].approval.statement.domain
    ensures |ActiveKeys(Run(c, events).rows, id)| == 2
  {
    var rows := Run(c, events).rows;
    RunOk(c, events);
    assert QuorumOk(rows, id) && RowOk(rows, i) && RowOk(rows, j);
    SubsetCount({i, j}, ActiveKeys(rows, id));
  }

  lemma RunGoesOn(c: Crypto, events: seq<Event>, more: seq<Event>)
    requires more != []
    ensures Run(c, events + more) == Apply(c, Run(c, events + more[..|more| - 1]), more[|more| - 1])
  {
    assert (events + more)[..|events + more| - 1] == events + more[..|more| - 1];
  }

  lemma StaysQuiet(a: map<RowKey, Row>, b: map<RowKey, Row>, k: RowKey)
    requires Continues(a, b) && k in a && a[k].status != Active
    ensures k in b && b[k] == a[k]
  {
  }

  /** An approval that expired or was revoked never counts again, whatever happens later. */
  lemma {:induction false} NeverCountsAgain(c: Crypto, events: seq<Event>, more: seq<Event>, k: RowKey)
    requires k in Run(c, events).rows && Run(c, events).rows[k].status != Active
    ensures k in Run(c, events + more).rows && Run(c, events + more).rows[k] == Run(c, events).rows[k]
  {
    if more == [] {
      assert events + more == events;
    } else {
      var before := Run(c, events + more[..|more| - 1]);
      NeverCountsAgain(c, events, more[..|more| - 1], k);
      RunOk(c, events + more[..|more| - 1]);
      ApplyKeeps(c, before, more[|more| - 1]);
      RunGoesOn(c, events, more);
      StaysQuiet(before.rows, Run(c, events + more).rows, k);
    }
  }

  /** A change of the funding coin's chain view stops a preparation exactly when its stored status is one of the three
      the update names. A preparation whose status was last read with no approval is not among them. */
  lemma FundingChangeStopsIff(c: Crypto, s: State, coin: Bytes32, status: PreparationStatus, closing: Bytes32)
    requires closing in s.preparations && s.preparations[closing].subject.fundingCoinId == coin
    requires status == RecheckRequired || status == InvalidatedChange
    ensures var after := Apply(c, s, FundingChanges(coin, status));
            && closing in after.preparations
            && (ChainChanged(after.preparations[closing]) <==>
                ChainChanged(s.preparations[closing]) || Marked(s.preparations[closing].status))
  {
  }

  function JustPrepared(p: Preparation): State {
    State(map[p.subject.closingCoinId := p], map[])
  }

  /** With no approval stored, a read finds nothing to count and says so on the preparation. */
  lemma ReadingAwaits(c: Crypto, p: Preparation, now: u64)
    requires p.status == OfflineVerified && now <= MAX_PROTOCOL_U64
    ensures Apply(c, JustPrepared(p), Reads(p.subject.closingCoinId, now))
            == JustPrepared(p.(status := AwaitingApproval))
  {
    var id := PreparationId(c, p);
    assert Expire(map[], id, now) == map[];
    assert Approvers(map[], id, now) == {} && CountedDomains(map[], id, now) == {};
  }

  lemma PreparedFirst(c: Crypto, p: Preparation)
    ensures Run(c, [Prepares(p.subject.closingCoinId, p)]) == JustPrepared(p)
  {
    var prepares := Prepares(p.subject.closingCoinId, p);
    assert [prepares][..0] == [];
    assert Run(c, [prepares]) == Apply(c, Run(c, []), prepares);
    assert Revoke(map[], {p.subject.closingCoinId}) == map[];
  }

  /** Two runs that differ in one read of the status: prepare and change the chain view, or read in between. The change
      stops the preparation in the first, and no longer in the second. */
  lemma ReadingHidesFromFundingChange(c: Crypto, p: Preparation, now: u64, status: PreparationStatus)
    requires p.status == OfflineVerified && now <= MAX_PROTOCOL_U64
    requires status == RecheckRequired || status == InvalidatedChange
    ensures var closing := p.subject.closingCoinId;
            var prepares, changes := Prepares(closing, p), FundingChanges(p.subject.fundingCoinId, status);
            var unread, read := Run(c, [prepares, changes]), Run(c, [prepares, Reads(closing, now), changes]);
            && closing in unread.preparations && ChainChanged(unread.preparations[closing])
            && closing in read.preparations && !ChainChanged(read.preparations[closing])
  {
    var closing := p.subject.closingCoinId;
    var prepares, looks, changes := Prepares(closing, p), Reads(closing, now),
        FundingChanges(p.subject.fundingCoinId, status);
    PreparedFirst(c, p);
    ReadingAwaits(c, p, now);
    RunGoesOn(c, [prepares], [changes]);
    RunGoesOn(c, [prepares], [looks]);
    RunGoesOn(c, [prepares, looks], [changes]);
    assert [prepares] + [] == [prepares] && [prepares] + [changes] == [prepares, changes];
    assert [prepares] + [looks] == [prepares, looks] && [prepares, looks] + [] == [prepares, looks];
    assert [prepares, looks] + [changes] == [prepares, looks, changes];
    FundingChangeStopsIff(c, JustPrepared(p), p.subject.fundingCoinId, status, closing);
    FundingChangeStopsIff(c, JustPrepared(p.(status := AwaitingApproval)), p.subject.fundingCoinId, status, closing);
  }

  // ---------------------------------------------------------------- the store

  class ApprovalStore {
    const c: Crypto
    var preparations: map<Bytes32, Preparation>
    var rows: map<RowKey, Row>

    ghost function Contents(): State
      reads this
    {
      State(preparations, rows)
    }

    constructor (c: Crypto)
      ensures this.c == c && Contents() == State(map[], map[])
    {
      this.c := c;
      preparations, rows := map[], map[];
    }

    method ExpireApprovals(id: Bytes32, now: u64)
      modifies this`rows
      ensures rows == Expire(old(rows), id, now)
    {
      rows := map k | k in rows ::
        if k.0 == id && rows[k].status == Active && rows[k].approval.statement.expiresAt <= now
        then rows[k].(status := Expired) else rows[k];
    }

    method RevokeApprovalsForClosing(closing: Bytes32)
      modifies this`rows
      ensures rows == Revoke(old(rows), {closing})
    {
      rows := Revoke(rows, {closing});
    }

    method RevokeApprovalsForFunding(coin: Bytes32)
      modifies this`rows
      ensures rows == Revoke(old(rows), Fundeds(preparations, coin))
    {
      rows := Revoke(rows, Fundeds(preparations, coin));
    }

    method ApprovalStatus(closing: Bytes32, now: u64) returns (r: Result<Report, ApprovalError>)
      modifies this
      ensures (Contents(), r) == ReadStatus(c, old(Contents()), closing, now)
    {
      if closing !in preparations {
        return Failure(Invalid("offline preparation was not found"));
      }
      if now > MAX_PROTOCOL_U64 {
        return Failure(Invalid("sqlite u64"));
      }
      var p := preparations[closing];
      var id := PreparationId(c, p);
      ExpireApprovals(id, now);
      var approvers, domains := |Approvers(rows, id, now)|, |CountedDomains(rows, id, now)|;
      var verdict := VerdictOf(p, approvers, domains);
      preparations := preparations[closing := p.(status := StatusFor(p, verdict))];
      return Success(Report(id, verdict, approvers, domains));
    }

    method SubmitChallengeApproval(a: SignedApproval, now: u64) returns (r: Result<Report, ApprovalError>)
      modifies this
      ensures (Contents(), r) == Submit(c, old(Contents()), a, now)
    {
      var valid := CheckCredential(c, a, now);
      :- valid;
      :- CheckBinding(c, State(preparations, rows), a);
      if now > MAX_PROTOCOL_U64 {
        return Failure(Invalid("sqlite u64"));
      }
      ExpireApprovals(a.statement.preparationId, now);
      r := SubmitCredential(a, now);
    }

    method SubmitCredential(a: SignedApproval, now: u64) returns (r: Result<Report, ApprovalError>)
      modifies this
      ensures (Contents(), r) == SubmitBound(c, old(Contents()), a, now)
    {
      var k := (a.statement.preparationId, a.statement.approverId);
      if k in rows && rows[k].approval != a {
        return Failure(Invalid("approver already submitted a different credential for this preparation"));
      }
      var known := k in rows;
      var current := ApprovalStatus(a.statement.subject.closingCoinId, now);
      if known || current.Failure? {
        return current;
      }
      if current.value.verdict == DualVerdict {
        return Failure(Invalid("offline preparation already has two active approvals"));
      }
      if current.value.verdict == RevokedVerdict {
        return Failure(Invalid("offline preparation is not approvable"));
      }
      r := InsertCredential(a, now);
    }

    method InsertCredential(a: SignedApproval, now: u64) returns (r: Result<Report, ApprovalError>)
      modifies this
      ensures (Contents(), r) == InsertApproval(c, old(Contents()), a, now)
    {
      if DomainTaken(rows, a.statement.preparationId, a.statement.domain) {
        return Failure(Invalid("a failure domain may only contribute one active approval"));
      }
      if a.statement.expiresAt > MAX_PROTOCOL_U64 {
        return Failure(Invalid("sqlite u64"));
      }
      if !RowFits(rows, a) {
        return Failure(Invalid("duplicate approval public key or nonce"));
      }
      rows := rows[(a.statement.preparationId, a.statement.approverId) := Row(a, Active)];
      r := ApprovalStatus(a.statement.subject.closingCoinId, now);
    }
  }
}
