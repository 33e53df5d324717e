/** The exact decision the preparing transaction reaches, and why writing it keeps the invariant. */
module HubDecide {
  import opened ByteStrings
  import opened Protocol
  import opened Types
  import opened Ledgers
  import opened Packages
  import opened HubRecords
  import opened HubGate
  import opened HubSteps
  import opened HubInvariant
  import opened HubReads

  // ---------------------------------------------------------------- what is known when the decision is taken

  /** A nonce without a reservation row is not in the ledger either. */
  lemma UnreservedNonceIsNew(c: Crypto, coin: Bytes32, ch: Channel, nonce: Bytes32)
    requires ChannelOk(c, coin, ch) && nonce !in ch.reservations
    ensures nonce !in Nonces(Entries(ch.ledger))
  {
    var id := IdentityOf(coin, ch.row);
    forall j | 0 <= j < |ch.ledger| ensures Entries(ch.ledger)[j].reservationNonce != nonce {
      var k: u64 := j + 1;
      assert IntentOk(c, id, ch.intents, ch.states, ch.ledger, ch.reservations, k);
    }
  }

  lemma LedgerExtends(c: Crypto, coin: Bytes32, ch: Channel, e: LedgerEntry)
    requires ChannelOk(c, coin, ch) && e.reservationNonce !in ch.reservations && ValidateEntry(c, e).Pass?
    ensures Extends(c, ch.row.terms, Entries(ch.ledger), e, Total(Entries(ch.ledger)))
  {
    TermsFacts(c, ch.row.terms);
    UnreservedNonceIsNew(c, coin, ch, e.reservationNonce);
  }

  lemma AuthorizedAppend(c: Crypto, t: ChannelTerms, coin: Bytes32, entries: seq<LedgerEntry>, signatures: seq<Bytes96>,
                         e: LedgerEntry, s: Bytes96)
    requires |entries| == |signatures| && Authorized(c, t, coin, entries, signatures)
    requires VerifyAuthorization(c, t, coin, e, s).Pass?
    ensures VerifyAuthorizations(c, t, coin, entries + [e], signatures + [s]).Pass?
  {
    var longer, all := entries + [e], signatures + [s];
    forall i | 0 <= i < |longer| ensures VerifyAuthorization(c, t, coin, longer[i], all[i]).Pass? {
      assert i < |entries| ==> VerifyAuthorization(c, t, coin, entries[i], signatures[i]).Pass?;
    }
    AuthorizationsMeaning(c, t, coin, longer, all);
  }

  // ---------------------------------------------------------------- the candidate is accepted

  /** The candidate made of the stored ledger and one more authorized entry passes every check. */
  lemma OneMoreEntryIsACandidate(c: Crypto, db: Database, coin: Bytes32, row: ChannelRow, e: LedgerEntry, s: Bytes96)
    requires coin in db && SameIdentity(db[coin].row, row)
    requires ValidTerms(c, row.terms) && HeadOk(c, IdentityOf(coin, row), row, db[coin].states, db[coin].ledger)
    requires LedgerOk(c, IdentityOf(coin, db[coin].row), db[coin].ledger) && |db[coin].ledger| < 64
    requires ValidLedger(c, row.terms, Entries(db[coin].ledger) + [e])
    requires VerifyAuthorization(c, row.terms, coin, e, s).Pass?
    ensures var entries := Entries(db[coin].ledger) + [e];
            var k := CheckpointOf(c, row.terms, coin, |db[coin].ledger| + 1, row.latestCheckpointHash, entries);
            && MakeCheckpoint(c, row.terms, coin, |db[coin].ledger| + 1, row.latestCheckpointHash, entries)
                == Success(k)
            && CheckpointHash(c, row.terms, k) == Success(CheckpointDigest(c, row.terms, k))
            && ValidateCandidate(c, db, coin, row, StateCandidate(k, entries, Signatures(db[coin].ledger) + [s]))
                == Pass
  {
    var rows := db[coin].ledger;
    var entries, signatures := Entries(rows) + [e], Signatures(rows) + [s];
    CheckpointOfValid(c, row.terms, coin, |rows| + 1, row.latestCheckpointHash, entries);
    AuthorizedAppend(c, row.terms, coin, Entries(rows), Signatures(rows), e, s);
    LedgerLoads(c, db, coin);
    var k := CheckpointOf(c, row.terms, coin, |rows| + 1, row.latestCheckpointHash, entries);
    assert ContinuesHead(c, coin, row, StateCandidate(k, entries, signatures));
    assert ExtendsLedger(rows, StateCandidate(k, entries, signatures));
  }

  /** What an open gate leads to, in every case. */
  function OpenVerdict(c: Crypto, coin: Bytes32, ch: Channel, row: ChannelRow, e: LedgerEntry)
    : Result<Decision, HubError>
    requires |ch.ledger| <= 64 && Total(Entries(ch.ledger)) <= row.terms.fundingAmount
  {
    var total, n := Total(Entries(ch.ledger)), |ch.ledger|;
    if HasPreparedIntent(ch) then Failure(PendingTransition)
    else if n == 64 then Success(Reject(LedgerFullStatus, Some(64)))
    else if total + e.amount > MAX_PROTOCOL_U64 then Failure(ProtocolFailure(IntegerRange("reserved_total")))
    else if total + e.amount > row.terms.fundingAmount then Success(Reject(InsufficientRemainderStatus, Some(n)))
    else
      TotalOfAppend(Entries(ch.ledger), e);
      var k := CheckpointOf(c, row.terms, coin, n + 1, row.latestCheckpointHash, Entries(ch.ledger) + [e]);
      Success(Accept(k, CheckpointDigest(c, row.terms, k), n))
  }

  lemma TotalOfAppend(entries: seq<LedgerEntry>, e: LedgerEntry)
    ensures Total(entries + [e]) == Total(entries) + e.amount
  {
    assert Front(entries + [e]) == entries;
  }

  lemma AppendedLedgerValid(c: Crypto, t: ChannelTerms, entries: seq<LedgerEntry>, e: LedgerEntry, total: nat)
    requires Extends(c, t, entries, e, total) && |entries| < 64 && total + e.amount <= t.fundingAmount
    ensures ValidLedger(c, t, entries + [e])
  {
    OneMore(c, entries, e);
  }

  lemma LedgerDecisionAccepts(c: Crypto, db: Database, coin: Bytes32, row: ChannelRow, entries: seq<LedgerEntry>,
                              signatures: seq<Bytes96>, n: u64, k: LedgerCheckpoint)
    requires row.latestSequence == n < 64 && ValidateLedger(c, row.terms, entries).Success?
    requires MakeCheckpoint(c, row.terms, coin, n + 1, row.latestCheckpointHash, entries) == Success(k)
    requires CheckpointHash(c, row.terms, k) == Success(CheckpointDigest(c, row.terms, k))
    requires ValidateCandidate(c, db, coin, row, StateCandidate(k, entries, signatures)) == Pass
    ensures DecideLedger(c, db, coin, row, entries, signatures, n)
            == Success(Accept(k, CheckpointDigest(c, row.terms, k), n))
  {
  }

  /** The decision on a ledger the entry does not fit, in every case. */
  lemma NoRoomDecision(c: Crypto, db: Database, coin: Bytes32, row: ChannelRow, entries: seq<LedgerEntry>,
                       e: LedgerEntry, signatures: seq<Bytes96>, total: nat)
    requires Extends(c, row.terms, entries, e, total) && |entries| <= 64
    requires |entries| == 64 || total + e.amount > row.terms.fundingAmount
    ensures DecideLedger(c, db, coin, row, entries + [e], signatures, |entries|) ==
            if |entries| == 64 then Success(Reject(LedgerFullStatus, Some(64)))
            else if total + e.amount > MAX_PROTOCOL_U64 then Failure(ProtocolFailure(IntegerRange("reserved_total")))
            else Success(Reject(InsufficientRemainderStatus, Some(|entries|)))
  {
    AppendVerdict(c, row.terms, entries, e, total);
  }

  /** The decision on the appended ledger, in every case. */
  lemma LedgerDecision(c: Crypto, db: Database, coin: Bytes32, row: ChannelRow, e: LedgerEntry, s: Bytes96, total: nat)
    requires coin in db && ChannelOk(c, coin, db[coin]) && SameIdentity(db[coin].row, row)
             && !HasPreparedIntent(db[coin])
    requires Extends(c, row.terms, Entries(db[coin].ledger), e, total) && |db[coin].ledger| <= 64
    requires VerifyAuthorization(c, row.terms, coin, e, s).Pass?
    ensures DecideLedger(c, db, coin, row, Entries(db[coin].ledger) + [e], Signatures(db[coin].ledger) + [s],
                         |db[coin].ledger|)
            == OpenVerdict(c, coin, db[coin], row, e)
  {
    var ch := db[coin];
    var entries, n: u64 := Entries(ch.ledger), |ch.ledger|;
    if n < 64 && total + e.amount <= row.terms.fundingAmount {
      AppendVerdict(c, row.terms, entries, e, total);
      AppendedLedgerValid(c, row.terms, entries, e, total);
      OneMoreEntryIsACandidate(c, db, coin, row, e, s);
      TotalOfAppend(entries, e);
      LedgerDecisionAccepts(c, db, coin, row, entries + [e], Signatures(ch.ledger) + [s], n,
                            CheckpointOf(c, row.terms, coin, n + 1, row.latestCheckpointHash, entries + [e]));
    } else {
      NoRoomDecision(c, db, coin, row, entries, e, Signatures(ch.ledger) + [s], total);
    }
  }

  lemma OpenReadsLedger(c: Crypto, db: Database, coin: Bytes32, row: ChannelRow, e: LedgerEntry, s: Bytes96,
                        rows: seq<LedgerRow>)
    requires coin in db && LoadLedger(c, db, coin) == Success(rows) && |rows| <= 64
    ensures DecideOpen(c, db, coin, row, e, s) ==
            if HasPreparedIntent(db[coin]) then Failure(PendingTransition)
            else DecideLedger(c, db, coin, row, Entries(rows) + [e], Signatures(rows) + [s], |rows|)
  {
  }

  /** The whole decision for a valid, authorized entry with a fresh nonce: pending, full, out of range, too
      expensive, or the one next state. */
  lemma OpenDecision(c: Crypto, db: Database, coin: Bytes32, row: ChannelRow, e: LedgerEntry, s: Bytes96)
    requires coin in db && ChannelOk(c, coin, db[coin]) && SameIdentity(db[coin].row, row)
    requires e.reservationNonce !in db[coin].reservations && VerifyAuthorization(c, row.terms, coin, e, s).Pass?
    ensures |db[coin].ledger| <= 64 && Total(Entries(db[coin].ledger)) <= row.terms.fundingAmount
    ensures DecideOpen(c, db, coin, row, e, s) == OpenVerdict(c, coin, db[coin], row, e)
  {
    var ch := db[coin];
    var total := Total(Entries(ch.ledger));
    AuthorizedRowDecodes(c, row.terms, coin, e, s);
    LedgerExtends(c, coin, ch, e);
    LedgerLoads(c, db, coin);
    OpenReadsLedger(c, db, coin, row, e, s, ch.ledger);
    if !HasPreparedIntent(ch) {
      LedgerDecision(c, db, coin, row, e, s, total);
    }
  }

  // ---------------------------------------------------------------- what is written

  predicate NoRoom(s: ReservationStatus) {
    s == LedgerFullStatus || s == InsufficientRemainderStatus
  }

  /** What a decision promises about the channel it was taken on. */
  ghost predicate Decided(c: Crypto, id: Identity, ch: Channel, head: Bytes32, e: LedgerEntry, s: Bytes96, d: Decision)
  {
    match d
    case Reject(status, index) => status != ReservationStatus.Signed && (index.Some? <==> NoRoom(status))
    case Accept(k, hash, position) =>
      && position == |ch.ledger| < 64
      && ValidLedger(c, id.terms, Entries(ch.ledger) + [e])
      && k == CheckpointOf(c, id.terms, id.coin, position + 1, head, Entries(ch.ledger) + [e])
      && hash == CheckpointDigest(c, id.terms, k)
      && VerifyAuthorization(c, id.terms, id.coin, e, s).Pass?
  }

  lemma AcceptedIsDecided(c: Crypto, id: Identity, ch: Channel, head: Bytes32, e: LedgerEntry, s: Bytes96,
                          k: LedgerCheckpoint, n: u64)
    requires ValidTerms(c, id.terms) && LedgerOk(c, id, ch.ledger) && n == |ch.ledger| < 64
    requires Extends(c, id.terms, Entries(ch.ledger), e, Total(Entries(ch.ledger)))
    requires Total(Entries(ch.ledger)) + e.amount <= id.terms.fundingAmount
    requires VerifyAuthorization(c, id.terms, id.coin, e, s).Pass?
    requires k == CheckpointOf(c, id.terms, id.coin, n + 1, head, Entries(ch.ledger) + [e])
    ensures Decided(c, id, ch, head, e, s, Accept(k, CheckpointDigest(c, id.terms, k), n))
  {
    AppendedLedgerValid(c, id.terms, Entries(ch.ledger), e, Total(Entries(ch.ledger)));
  }

  /** When the verdict is to accept, and what it accepts. */
  lemma OpenVerdictCases(c: Crypto, coin: Bytes32, ch: Channel, row: ChannelRow, e: LedgerEntry, d: Decision)
    requires |ch.ledger| <= 64 && Total(Entries(ch.ledger)) <= row.terms.fundingAmount
    requires OpenVerdict(c, coin, ch, row, e) == Success(d)
    ensures d.Reject? ==> NoRoom(d.status) && d.index.Some?
    ensures d.Accept? ==>
              && !HasPreparedIntent(ch) && |ch.ledger| < 64 && d.position == |ch.ledger|
              && Total(Entries(ch.ledger)) + e.amount <= row.terms.fundingAmount
              && d.checkpoint == CheckpointOf(c, row.terms, coin, d.position + 1, row.latestCheckpointHash,
                                              Entries(ch.ledger) + [e])
              && d.hash == CheckpointDigest(c, row.terms, d.checkpoint)
  {
  }

  lemma OpenVerdictDecides(c: Crypto, coin: Bytes32, ch: Channel, row: ChannelRow, e: LedgerEntry, s: Bytes96,
                           d: Decision)
    requires ChannelOk(c, coin, ch) && SameIdentity(ch.row, row) && e.reservationNonce !in ch.reservations
    requires VerifyAuthorization(c, row.terms, coin, e, s).Pass?
    requires |ch.ledger| <= 64 && Total(Entries(ch.ledger)) <= row.terms.fundingAmount
    requires OpenVerdict(c, coin, ch, row, e) == Success(d)
    ensures Decided(c, IdentityOf(coin, row), ch, row.latestCheckpointHash, e, s, d)
    ensures d.Accept? ==> !HasPreparedIntent(ch)
  {
    OpenVerdictCases(c, coin, ch, row, e, d);
    if d.Accept? {
      AuthorizedRowDecodes(c, row.terms, coin, e, s);
      LedgerExtends(c, coin, ch, e);
      AcceptedIsDecided(c, IdentityOf(coin, row), ch, row.latestCheckpointHash, e, s, d.checkpoint, d.position);
    }
  }

  lemma OpenDecides(c: Crypto, db: Database, coin: Bytes32, row: ChannelRow, e: LedgerEntry, s: Bytes96, d: Decision)
    requires coin in db && ChannelOk(c, coin, db[coin]) && SameIdentity(db[coin].row, row)
    requires e.reservationNonce !in db[coin].reservations && VerifyAuthorization(c, row.terms, coin, e, s).Pass?
    requires DecideOpen(c, db, coin, row, e, s) == Success(d)
    ensures Decided(c, IdentityOf(coin, row), db[coin], row.latestCheckpointHash, e, s, d)
  {
    OpenDecision(c, db, coin, row, e, s);
    OpenVerdictDecides(c, coin, db[coin], row, e, s, d);
  }

  /** The authorization check of the transaction is the one a package repeats. */
  lemma AuthorizationChecked(c: Crypto, t: ChannelTerms, coin: Bytes32, e: LedgerEntry, s: Bytes96)
    requires AuthorizationHash(c, t, coin, e).Success?
    ensures VerifyAuthorization(c, t, coin, e, s)
            == VerifyHash(c, t.userPublicKey, AuthorizationHash(c, t, coin, e).value, s)
  {
  }

  /** What is decided, and on what. */
  lemma DecideOutcome(c: Crypto, db: Database, request: ReservationRequest, row: ChannelRow, authorization: Bytes32,
                      gated: Gated, d: Decision)
    requires request.fundingCoinId in db && Decide(c, db, request, row, authorization, gated) == Success(d)
    requires gated.blocking.Some? ==> ChainStatus(gated.blocking.value)
    ensures if VerifyHash(c, row.terms.userPublicKey, authorization, request.signature).Fail? then
              d == Reject(InvalidAuthorization, None)
            else if gated.blocking.Some? then d == Reject(gated.blocking.value, None)
            else DecideOpen(c, db, request.fundingCoinId, row, request.entry, request.signature) == Success(d)
  {
  }

  lemma RejectIsDecided(c: Crypto, id: Identity, ch: Channel, head: Bytes32, e: LedgerEntry, s: Bytes96, d: Decision)
    requires d.Reject? && d.index.None? && (d.status == InvalidAuthorization || ChainStatus(d.status))
    ensures Decided(c, id, ch, head, e, s, d)
  {
  }

  lemma DecideDecides(c: Crypto, db: Database, request: ReservationRequest, row: ChannelRow, authorization: Bytes32,
                      gated: Gated)
    requires request.fundingCoinId in db && ChannelOk(c, request.fundingCoinId, db[request.fundingCoinId])
    requires SameIdentity(db[request.fundingCoinId].row, row)
    requires AuthorizationHash(c, row.terms, request.fundingCoinId, request.entry) == Success(authorization)
    requires request.entry.reservationNonce !in db[request.fundingCoinId].reservations
    requires gated.blocking.Some? ==> ChainStatus(gated.blocking.value)
    requires Decide(c, db, request, row, authorization, gated).Success?
    ensures var d := Decide(c, db, request, row, authorization, gated).value;
            && Decided(c, IdentityOf(request.fundingCoinId, row), db[request.fundingCoinId], row.latestCheckpointHash,
                       request.entry, request.signature, d)
            && (d.Accept? ==> gated.blocking.None?)
  {
    var coin, d := request.fundingCoinId, Decide(c, db, request, row, authorization, gated).value;
    DecideOutcome(c, db, request, row, authorization, gated, d);
    if VerifyHash(c, row.terms.userPublicKey, authorization, request.signature).Pass? && gated.blocking.None? {
      AuthorizationChecked(c, row.terms, coin, request.entry, request.signature);
      OpenDecides(c, db, coin, row, request.entry, request.signature, d);
    } else {
      RejectIsDecided(c, IdentityOf(coin, row), db[coin], row.latestCheckpointHash, request.entry, request.signature,
                      d);
    }
  }
}
