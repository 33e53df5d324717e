/** What a stored approval is worth: when a submission adds one, and what every stored one proves about who signed what
    and when. */
module ApprovalCredentials {
  import opened ByteStrings
  import opened Protocol
  import opened Watchtower
  import opened Approval

  // ---------------------------------------------------------------- one credential

  /** The approver's key signed the canonical bytes of this very statement, a decision to approve. */
  ghost predicate Credential(c: Crypto, a: SignedApproval) {
    var s := a.statement;
    && ValidName(c, s.approverId) && ValidName(c, s.domain)
    && ParsePublicKey(c, s.key).Pass? && ParseSignature(c, a.signature).Pass?
    && c.blsVerify(a.signature, s.key, c.sha256(APPROVAL_STATEMENT_DOMAIN + EncodeStatement(s)))
    && s.decision == Approve && s.protocolVersion == 0x0360 && s.issuedAt < s.expiresAt
  }

  predicate Current(s: Statement, now: u64) {
    s.issuedAt <= now < s.expiresAt
  }

  /** The statement repeats a stored preparation that the chain has not overtaken, and its id. */
  predicate BoundTo(c: Crypto, preparations: map<Bytes32, Preparation>, s: Statement) {
    && s.subject.closingCoinId in preparations
    && (var p := preparations[s.subject.closingCoinId];
        && p.status != RecheckRequired && p.status != InvalidatedChange
        && s.subject == p.subject && s.preparationId == PreparationId(c, p))
  }

  lemma CredentialCheckedIff(c: Crypto, a: SignedApproval, now: u64)
    ensures CheckCredential(c, a, now).Pass? <==> Credential(c, a) && Current(a.statement, now)
  {
  }

  lemma BindingCheckedIff(c: Crypto, s: State, a: SignedApproval)
    ensures CheckBinding(c, s, a).Pass? <==> BoundTo(c, s.preparations, a.statement)
  {
  }

  // ---------------------------------------------------------------- when a submission adds a row

  function KeyFor(a: SignedApproval): RowKey {
    (a.statement.preparationId, a.statement.approverId)
  }

  /** An approval of the preparation that still counts now. */
  predicate Counts(rows: map<RowKey, Row>, id: Bytes32, now: u64, k: RowKey) {
    k in rows && k.0 == id && rows[k].status == Active && rows[k].approval.statement.expiresAt > now
  }

  /** Less than two approvals of the preparation still count, none of this failure domain. */
  ghost predicate HasPlace(rows: map<RowKey, Row>, a: SignedApproval, now: u64) {
    var id := a.statement.preparationId;
    && |Counting(rows, id, now)| < 2
    && (forall k :: Counts(rows, id, now, k) ==> rows[k].approval.statement.domain != a.statement.domain)
  }

  /** The approver, its key and its nonce are new to the preparation, whatever became of earlier approvals. */
  ghost predicate IsNew(rows: map<RowKey, Row>, a: SignedApproval) {
    && KeyFor(a) !in rows
    && (forall k :: k in rows && k.0 == a.statement.preparationId ==>
          rows[k].approval.statement.key != a.statement.key && rows[k].approval.statement.nonce != a.statement.nonce)
  }

  /** When a submission adds its approval. */
  ghost predicate Admitted(c: Crypto, s: State, a: SignedApproval, now: u64) {
    && Credential(c, a) && Current(a.statement, now) && a.statement.expiresAt <= MAX_PROTOCOL_U64
    && BoundTo(c, s.preparations, a.statement)
    && IsNew(s.rows, a) && HasPlace(s.rows, a, now)
  }

  lemma ExpiredActive(rows: map<RowKey, Row>, id: Bytes32, now: u64)
    ensures ActiveKeys(Expire(rows, id, now), id) == Counting(rows, id, now)
    ensures Expire(Expire(rows, id, now), id, now) == Expire(rows, id, now)
  {
  }

  /** What a bound submission reads: the rows with the expired ones marked, and a verdict on how many still count. */
  lemma BoundRead(c: Crypto, s: State, a: SignedApproval, now: u64)
    requires StateOk(s) && BoundTo(c, s.preparations, a.statement) && now <= MAX_PROTOCOL_U64
    ensures var id := a.statement.preparationId;
            var expired := s.(rows := Expire(s.rows, id, now));
            var (read, r) := ReadStatus(c, expired, a.statement.subject.closingCoinId, now);
            && StateOk(expired) && r.Success? && read.rows == expired.rows
            && r.value.verdict != RevokedVerdict
            && (r.value.verdict == DualVerdict <==> |Counting(s.rows, id, now)| == 2)
            && |Counting(s.rows, id, now)| <= 2
  {
    var id := a.statement.preparationId;
    var expired := s.(rows := Expire(s.rows, id, now));
    ExpireQuietens(s.rows, id, now);
    QuieteningKeeps(s.preparations, s, expired.rows);
    ExpiredActive(s.rows, id, now);
    StatusIsExact(c, expired, a.statement.subject.closingCoinId, now);
  }

  lemma DomainTakenIff(rows: map<RowKey, Row>, id: Bytes32, now: u64, domain: Bytes)
    ensures DomainTaken(Expire(rows, id, now), id, domain) <==>
            exists k :: Counts(rows, id, now, k) && rows[k].approval.statement.domain == domain
  {
    var expired := Expire(rows, id, now);
    ExpiredActive(rows, id, now);
    if k :| Counts(rows, id, now, k) && rows[k].approval.statement.domain == domain {
      assert k in ActiveKeys(expired, id) && expired[k].approval == rows[k].approval;
    }
    if k :| k in ActiveKeys(expired, id) && expired[k].approval.statement.domain == domain {
      assert Counts(rows, id, now, k) && expired[k].approval == rows[k].approval;
    }
  }

  lemma RowFitsIff(rows: map<RowKey, Row>, a: SignedApproval, now: u64)
    requires KeyFor(a) !in rows
    ensures RowFits(Expire(rows, a.statement.preparationId, now), a) <==> IsNew(rows, a)
  {
    var expired := Expire(rows, a.statement.preparationId, now);
    if RowFits(expired, a) {
      forall k | k in rows && k.0 == a.statement.preparationId
        ensures rows[k].approval.statement.key != a.statement.key
                && rows[k].approval.statement.nonce != a.statement.nonce
      {
        assert k in expired && expired[k].approval == rows[k].approval;
      }
    }
  }

  /** What inserting comes to, on rows already expired. */
  lemma InsertOutcome(c: Crypto, s: State, a: SignedApproval, now: u64)
    requires a.statement.subject.closingCoinId in s.preparations && now <= MAX_PROTOCOL_U64
    requires PreparationId(c, s.preparations[a.statement.subject.closingCoinId]) == a.statement.preparationId
    ensures var (after, r) := InsertApproval(c, s, a, now);
            if !DomainTaken(s.rows, a.statement.preparationId, a.statement.domain)
               && a.statement.expiresAt <= MAX_PROTOCOL_U64 && RowFits(s.rows, a)
            then after.rows == Expire(s.rows[KeyFor(a) := Row(a, Active)], a.statement.preparationId, now) && r.Success?
            else after == s && r.Failure?
  {
  }

  lemma SubmitBoundCases(c: Crypto, s: State, a: SignedApproval, now: u64)
    requires KeyFor(a) !in s.rows
    requires ReadStatus(c, s, a.statement.subject.closingCoinId, now).1.Success?
    requires ReadStatus(c, s, a.statement.subject.closingCoinId, now).1.value.verdict != RevokedVerdict
    ensures var (read, current) := ReadStatus(c, s, a.statement.subject.closingCoinId, now);
            if current.value.verdict == DualVerdict
            then SubmitBound(c, s, a, now).0 == read && SubmitBound(c, s, a, now).1.Failure?
            else SubmitBound(c, s, a, now) == InsertApproval(c, read, a, now)
  {
  }

  lemma KnownAddsNothing(c: Crypto, s: State, a: SignedApproval, now: u64)
    requires KeyFor(a) in s.rows
    ensures SubmitBound(c, s, a, now).0.rows.Keys == s.rows.Keys
  {
    SameKeys(c, s, a.statement.subject.closingCoinId, now);
  }

  lemma SubmitPasses(c: Crypto, s: State, a: SignedApproval, now: u64)
    ensures Submit(c, s, a, now) ==
            if !(Credential(c, a) && Current(a.statement, now)) || !BoundTo(c, s.preparations, a.statement)
               || now > MAX_PROTOCOL_U64
            then (s, Submit(c, s, a, now).1)
            else SubmitBound(c, s.(rows := Expire(s.rows, a.statement.preparationId, now)), a, now)
  {
    CredentialCheckedIff(c, a, now);
    BindingCheckedIff(c, s, a);
  }

  lemma NewSubmission(c: Crypto, s: State, a: SignedApproval, now: u64)
    requires StateOk(s) && Credential(c, a) && Current(a.statement, now) && now <= MAX_PROTOCOL_U64
    requires BoundTo(c, s.preparations, a.statement) && KeyFor(a) !in s.rows
    ensures var (after, r) := Submit(c, s, a, now);
            var expired := Expire(s.rows, a.statement.preparationId, now);
            if IsNew(s.rows, a) && HasPlace(s.rows, a, now) && a.statement.expiresAt <= MAX_PROTOCOL_U64
            then
              r.Success? && after.rows == Expire(expired[KeyFor(a) := Row(a, Active)], a.statement.preparationId, now)
            else after.rows == expired && r.Failure?
  {
    var id := a.statement.preparationId;
    var expired := s.(rows := Expire(s.rows, id, now));
    SubmitPasses(c, s, a, now);
    BoundRead(c, s, a, now);
    SubmitBoundCases(c, expired, a, now);
    var read := ReadStatus(c, expired, a.statement.subject.closingCoinId, now).0;
    if |Counting(s.rows, id, now)| < 2 {
      InsertOutcome(c, read, a, now);
      DomainTakenIff(s.rows, id, now, a.statement.domain);
      RowFitsIff(s.rows, a, now);
    }
  }

  /** A submission adds a row, the one approval it brings, exactly when it is admitted: signed by its own key, current,
      bound to the stored preparation, new in approver, key and nonce, and one of at most two of different domains. */
  lemma SubmitAddsIff(c: Crypto, s: State, a: SignedApproval, now: u64)
    requires StateOk(s)
    ensures var after := Submit(c, s, a, now).0;
            && ((exists k :: k in after.rows && k !in s.rows) <==> now <= MAX_PROTOCOL_U64 && Admitted(c, s, a, now))
            && (forall k :: k in after.rows && k !in s.rows ==> k == KeyFor(a) && after.rows[k] == Row(a, Active))
  {
    var after := Submit(c, s, a, now).0;
    SubmitPasses(c, s, a, now);
    if Credential(c, a) && Current(a.statement, now) && BoundTo(c, s.preparations, a.statement)
       && now <= MAX_PROTOCOL_U64 {
      if KeyFor(a) in s.rows {
        KnownAddsNothing(c, s.(rows := Expire(s.rows, a.statement.preparationId, now)), a, now);
      } else {
        NewSubmission(c, s, a, now);
        if Admitted(c, s, a, now) {
          assert KeyFor(a) in after.rows;
        }
      }
    }
  }

  lemma KnownSubmission(c: Crypto, s: State, a: SignedApproval, now: u64)
    requires StateOk(s) && Credential(c, a) && Current(a.statement, now) && now <= MAX_PROTOCOL_U64
    requires BoundTo(c, s.preparations, a.statement) && KeyFor(a) in s.rows
    ensures var (after, r) := Submit(c, s, a, now);
            && after.rows == Expire(s.rows, a.statement.preparationId, now)
            && (r.Success? <==> s.rows[KeyFor(a)].approval == a)
  {
    var expired := s.(rows := Expire(s.rows, a.statement.preparationId, now));
    SubmitPasses(c, s, a, now);
    BoundRead(c, s, a, now);
    KnownCases(c, expired, a, now);
  }

  lemma KnownCases(c: Crypto, s: State, a: SignedApproval, now: u64)
    requires KeyFor(a) in s.rows
    ensures SubmitBound(c, s, a, now).0 ==
            if s.rows[KeyFor(a)].approval == a then ReadStatus(c, s, a.statement.subject.closingCoinId, now).0 else s
    ensures ReadStatus(c, s, a.statement.subject.closingCoinId, now).1.Success? ==>
              (SubmitBound(c, s, a, now).1.Success? <==> s.rows[KeyFor(a)].approval == a)
  {
  }

  /** A submission succeeds exactly when its credential, its time and its binding are good, and its approver either
      submitted the very same approval before or is admitted now. A submission that gets that far marks the
      preparation's approvals whose time has come, and touches no other row. */
  lemma SubmitSucceedsIff(c: Crypto, s: State, a: SignedApproval, now: u64)
    requires StateOk(s)
    ensures var (after, r) := Submit(c, s, a, now);
            var passes := && Credential(c, a) && Current(a.statement, now) && BoundTo(c, s.preparations, a.statement)
                          && now <= MAX_PROTOCOL_U64;
            && (r.Success? <==>
                && passes
                && (if KeyFor(a) in s.rows then s.rows[KeyFor(a)].approval == a else Admitted(c, s, a, now)))
            && (!passes ==> after == s)
            && (passes ==>
                  forall k :: k in s.rows ==>
                    && k in after.rows
                    && after.rows[k] ==
                       if k.0 == a.statement.preparationId && s.rows[k].status == Active
                          && s.rows[k].approval.statement.expiresAt <= now
                       then s.rows[k].(status := Expired) else s.rows[k])
  {
    SubmitPasses(c, s, a, now);
    if Credential(c, a) && Current(a.statement, now) && BoundTo(c, s.preparations, a.statement)
       && now <= MAX_PROTOCOL_U64 {
      if KeyFor(a) in s.rows {
        KnownSubmission(c, s, a, now);
      } else {
        NewSubmission(c, s, a, now);
      }
    } else {
      RefusedOutright(c, s, a, now);
    }
  }

  lemma RefusedOutright(c: Crypto, s: State, a: SignedApproval, now: u64)
    requires !(Credential(c, a) && Current(a.statement, now) && BoundTo(c, s.preparations, a.statement)
               && now <= MAX_PROTOCOL_U64)
    ensures Submit(c, s, a, now).0 == s && Submit(c, s, a, now).1.Failure?
  {
    CredentialCheckedIff(c, a, now);
    BindingCheckedIff(c, s, a);
  }

  // ---------------------------------------------------------------- every stored approval

  lemma QuietAddsNothing(c: Crypto, s: State, event: Event)
    requires !event.Submits?
    ensures Apply(c, s, event).rows.Keys == s.rows.Keys
  {
    if event.Reads? {
      SameKeys(c, s, event.closing, event.now);
    }
  }

  /** Event `n` of the run submitted this approval, and it was admitted then. */
  ghost predicate AdmittedAt(c: Crypto, events: seq<Event>, n: nat, k: RowKey, a: SignedApproval) {
    && n < |events| && events[n].Submits? && events[n].approval == a && KeyFor(a) == k
    && Admitted(c, Run(c, events[..n]), a, events[n].now)
  }

  /** Every approval stored after any run was admitted by one submission of the run: signed by its own key, current, and
      bound to the preparation stored then. */
  lemma {:induction false} StoredIsAdmitted(c: Crypto, events: seq<Event>, k: RowKey) returns (n: nat)
    requires k in Run(c, events).rows
    ensures AdmittedAt(c, events, n, k, Run(c, events).rows[k].approval)
  {
    var front, event := events[..|events| - 1], events[|events| - 1];
    var s := Run(c, front);
    RunOk(c, front);
    if k in s.rows {
      n := StoredIsAdmitted(c, front, k);
      assert front[..n] == events[..n];
      ApplyKeeps(c, s, event);
    } else {
      n := |front|;
      NewIsAdmitted(c, s, event, k);
    }
  }

  lemma NewIsAdmitted(c: Crypto, s: State, event: Event, k: RowKey)
    requires StateOk(s) && k !in s.rows && k in Apply(c, s, event).rows
    ensures event.Submits? && k == KeyFor(event.approval) && Apply(c, s, event).rows[k].approval == event.approval
    ensures Admitted(c, s, event.approval, event.now)
  {
    if event.Submits? {
      SubmitAddsIff(c, s, event.approval, event.now);
    } else {
      QuietAddsNothing(c, s, event);
    }
  }

  /** No two approvals of a preparation share a key or a nonce, whatever became of them. */
  ghost predicate KeysApart(rows: map<RowKey, Row>) {
    forall i, j :: (i in rows && j in rows && i.0 == j.0
                    && (|| rows[i].approval.statement.key == rows[j].approval.statement.key
                        || rows[i].approval.statement.nonce == rows[j].approval.statement.nonce)) ==> i == j
  }

  lemma ApplyKeepsApart(c: Crypto, s: State, event: Event)
    requires StateOk(s) && KeysApart(s.rows)
    ensures KeysApart(Apply(c, s, event).rows)
  {
    var after := Apply(c, s, event).rows;
    ApplyKeeps(c, s, event);
    if event.Submits? {
      SubmitAddsIff(c, s, event.approval, event.now);
    } else {
      QuietAddsNothing(c, s, event);
    }
    forall k | k in s.rows ensures k in after && after[k].approval == s.rows[k].approval {
    }
  }

  lemma {:induction false} RunKeepsApart(c: Crypto, events: seq<Event>)
    ensures KeysApart(Run(c, events).rows)
  {
    if events != [] {
      var front := events[..|events| - 1];
      RunOk(c, front);
      RunKeepsApart(c, front);
      ApplyKeepsApart(c, Run(c, front), events[|events| - 1]);
    }
  }

  /** A stored approval of this preparation that counts now. */
  ghost predicate CountedApproval(c: Crypto, p: Preparation, row: Row, now: u64) {
    && row.status == Active && Credential(c, row.approval) && now < row.approval.statement.expiresAt
    && row.approval.statement.preparationId == PreparationId(c, p)
  }

  /** Two approvals by different people: approver, failure domain and key all differ. */
  predicate Independent(a: Statement, b: Statement) {
    a.approverId != b.approverId && a.domain != b.domain && a.key != b.key
  }

  lemma {:induction false} TwoOf<T>(s: set<T>) returns (i: T, j: T)
    requires |s| == 2
    ensures i in s && j in s && i != j
  {
    i :| i in s;
    assert |s - {i}| == 1;
    j :| j in s - {i};
  }

  lemma DualReads(c: Crypto, s: State, closing: Bytes32, now: u64) returns (i: RowKey, j: RowKey)
    requires StateOk(s) && ReadStatus(c, s, closing, now).1.Success?
    requires ReadStatus(c, s, closing, now).1.value.verdict == DualVerdict
    ensures closing in s.preparations && !ChainChanged(s.preparations[closing])
    ensures var id := PreparationId(c, s.preparations[closing]);
            i != j && Counts(s.rows, id, now, i) && Counts(s.rows, id, now, j)
            && s.rows[i].approval.statement.domain != s.rows[j].approval.statement.domain
  {
    var id := PreparationId(c, s.preparations[closing]);
    StatusIsExact(c, s, closing, now);
    ExpiredActive(s.rows, id, now);
    assert QuorumOk(s.rows, id);
    i, j := TwoOf(Counting(s.rows, id, now));
    assert i in ActiveKeys(s.rows, id) && j in ActiveKeys(s.rows, id);
  }

  lemma CountedIsSigned(c: Crypto, events: seq<Event>, p: Preparation, now: u64, k: RowKey)
    requires Counts(Run(c, events).rows, PreparationId(c, p), now, k)
    ensures CountedApproval(c, p, Run(c, events).rows[k], now)
    ensures k == KeyFor(Run(c, events).rows[k].approval)
  {
    var n := StoredIsAdmitted(c, events, k);
  }

  /** After any run, a dual verdict means that two stored approvals of exactly this preparation are active, unexpired,
      and each signed by its own key, of two approvers, failure domains and keys; and that the chain has not changed. */
  lemma DualMeansTwoSigned(c: Crypto, events: seq<Event>, closing: Bytes32, now: u64) returns (i: RowKey, j: RowKey)
    requires ReadStatus(c, Run(c, events), closing, now).1.Success?
    requires ReadStatus(c, Run(c, events), closing, now).1.value.verdict == DualVerdict
    ensures closing in Run(c, events).preparations && i in Run(c, events).rows && j in Run(c, events).rows
    ensures var s := Run(c, events);
            && !ChainChanged(s.preparations[closing])
            && CountedApproval(c, s.preparations[closing], s.rows[i], now)
            && CountedApproval(c, s.preparations[closing], s.rows[j], now)
            && Independent(s.rows[i].approval.statement, s.rows[j].approval.statement)
  {
    var s := Run(c, events);
    RunOk(c, events);
    RunKeepsApart(c, events);
    i, j := DualReads(c, s, closing, now);
    CountedIsSigned(c, events, s.preparations[closing], now, i);
    CountedIsSigned(c, events, s.preparations[closing], now, j);
  }

  // ---------------------------------------------------------------- what an operation touches

  /** The status a verdict leaves on a preparation; a chain change keeps its own. */
  predicate StatusGoesWith(verdict: Verdict, before: PreparationStatus, after: PreparationStatus) {
    match verdict
    case DualVerdict => after == DualApproved
    case PartialVerdict => after == PartiallyApproved
    case AwaitingVerdict => after == AwaitingApproval
    case RevokedVerdict => after == before
  }

  /** Reading a status succeeds for a preparation that is there, at a time that fits; it marks exactly that
      preparation's active approvals whose time has come, and changes nothing else but the preparation's status, to
      the verdict's. */
  lemma ReadTouches(c: Crypto, s: State, closing: Bytes32, now: u64)
    ensures var (after, r) := ReadStatus(c, s, closing, now);
            && (r.Success? <==> closing in s.preparations && now <= MAX_PROTOCOL_U64)
            && (r.Failure? ==> after == s)
            && (r.Success? ==>
                  var p := s.preparations[closing];
                  && closing in after.preparations
                  && after.preparations == s.preparations[closing := p.(status := after.preparations[closing].status)]
                  && StatusGoesWith(r.value.verdict, p.status, after.preparations[closing].status)
                  && after.rows.Keys == s.rows.Keys
                  && forall k :: k in s.rows ==>
                       var row := s.rows[k];
                       after.rows[k] ==
                       if k.0 == PreparationId(c, p) && row.status == Active && row.approval.statement.expiresAt <= now
                       then row.(status := Expired) else row)
  {
  }

  /** The closing coins an event takes back the approvals of. */
  predicate TakesBack(s: State, event: Event, closing: Bytes32) {
    match event
    case Prepares(prepared, _) => prepared == closing
    case ClosingChanges(changed) => changed == closing
    case FundingChanges(coin, _) => closing in s.preparations && s.preparations[closing].subject.fundingCoinId == coin
    case _ => false
  }

  /** A new preparation, or a change of the chain, revokes exactly the active approvals about the closing coins it is
      of. */
  lemma ChangeRevokes(c: Crypto, s: State, event: Event, k: RowKey)
    requires (event.Prepares? || event.ClosingChanges? || event.FundingChanges?) && k in s.rows
    ensures k in Apply(c, s, event).rows
    ensures Apply(c, s, event).rows[k] ==
            if s.rows[k].status == Active
               && TakesBack(s, event, s.rows[k].approval.statement.subject.closingCoinId)
            then s.rows[k].(status := Revoked) else s.rows[k]
  {
  }

  // ---------------------------------------------------------------- which preparation an id names

  /** The string a preparation's id is the hash of. */
  function PreparationPreimage(p: Preparation): Bytes {
    var x := p.subject;
    Ascii("XHUB_CHALLENGE_PREPARATION_V3_6") + (
      U16(0x0360) + (x.closingCoinId + (x.fundingCoinId + (x.feeCoinId + (
      x.reportHash + (x.bundleCommitment + (
      U64(x.peakHeight) + (x.peakHeaderHash + (U64(x.deadline) + U64(p.preparedAt))))))))))
  }

  lemma PreparationPreimageInjective(p: Preparation, q: Preparation)
    requires PreparationPreimage(p) == PreparationPreimage(q)
    ensures p.subject == q.subject && p.preparedAt == q.preparedAt
  {
    var x, y := p.subject, q.subject;
    var d, v := Ascii("XHUB_CHALLENGE_PREPARATION_V3_6"), U16(0x0360);
    var a4, b4 := U64(x.deadline) + U64(p.preparedAt), U64(y.deadline) + U64(q.preparedAt);
    var a3, b3 := U64(x.peakHeight) + (x.peakHeaderHash + a4), U64(y.peakHeight) + (y.peakHeaderHash + b4);
    var a2, b2 := x.reportHash + (x.bundleCommitment + a3), y.reportHash + (y.bundleCommitment + b3);
    var a1, b1 := x.fundingCoinId + (x.feeCoinId + a2), y.fundingCoinId + (y.feeCoinId + b2);
    Split(d, v + (x.closingCoinId + a1), d, v + (y.closingCoinId + b1));
    Split(v, x.closingCoinId + a1, v, y.closingCoinId + b1);
    Split(x.closingCoinId, a1, y.closingCoinId, b1);
    Split(x.fundingCoinId, x.feeCoinId + a2, y.fundingCoinId, y.feeCoinId + b2);
    Split(x.feeCoinId, a2, y.feeCoinId, b2);
    Split(x.reportHash, x.bundleCommitment + a3, y.reportHash, y.bundleCommitment + b3);
    Split(x.bundleCommitment, a3, y.bundleCommitment, b3);
    Split(U64(x.peakHeight), x.peakHeaderHash + a4, U64(y.peakHeight), y.peakHeaderHash + b4);
    Split(x.peakHeaderHash, a4, y.peakHeaderHash, b4);
    Split(U64(x.deadline), U64(p.preparedAt), U64(y.deadline), U64(q.preparedAt));
    U64Injective(x.peakHeight, y.peakHeight);
    U64Injective(x.deadline, y.deadline);
    U64Injective(p.preparedAt, q.preparedAt);
  }

  /** An id names one preparation, down to when it was prepared; or two hashed strings collide. */
  lemma OnePreparation(c: Crypto, p: Preparation, q: Preparation)
    requires PreparationId(c, p) == PreparationId(c, q)
    requires CollisionFree(c.sha256, {PreparationPreimage(p), PreparationPreimage(q)})
    ensures p.subject == q.subject && p.preparedAt == q.preparedAt
  {
    NoCollision(c.sha256, {PreparationPreimage(p), PreparationPreimage(q)}, PreparationPreimage(p),
                PreparationPreimage(q));
    PreparationPreimageInjective(p, q);
  }
}
