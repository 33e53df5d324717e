/** What verifies and what proves misbehaviour: every signature check down to BLS and the string signed, and the two
    kinds of evidence against a HUB. */
module Evidence {
  import opened ByteStrings
  import opened Protocol
  import opened Types
  import opened Packages

  // ---------------------------------------------------------------- signatures

  /** The compressed point at infinity. */
  function Infinity(width: nat): Bytes
    requires width > 0
  {
    [0xc0] + Zeros(width - 1)
  }

  /** Key and signature decode, neither is the point at infinity, and BLS accepts. */
  predicate Verifies(c: Crypto, key: Bytes48, message: Bytes32, signature: Bytes96) {
    && key != Infinity(48) && c.decodesAsPublicKey(key)
    && signature != Infinity(96) && c.decodesAsSignature(signature)
    && c.blsVerify(signature, key, message)
  }

  lemma InfinityIff(b: Bytes)
    requires |b| > 0
    ensures IsInfinity(b) <==> b == Infinity(|b|)
  {
  }

  lemma VerifyHashIff(c: Crypto, key: Bytes48, message: Bytes32, signature: Bytes96)
    ensures VerifyHash(c, key, message, signature).Pass? <==> Verifies(c, key, message, signature)
  {
    InfinityIff(key);
    InfinityIff(signature);
  }

  /** An entry is valid when it pays a positive protocol integer, to a merchant whose receipt key decodes. */
  lemma EntryValidIff(c: Crypto, e: LedgerEntry)
    ensures ValidateEntry(c, e).Pass? <==>
            && 0 < e.amount <= 0x7FFF_FFFF_FFFF_FFFF
            && e.merchantReceiptPublicKey != Infinity(48) && c.decodesAsPublicKey(e.merchantReceiptPublicKey)
  {
    InfinityIff(e.merchantReceiptPublicKey);
  }

  /** An authorization verifies when terms and entry are valid and the user's key signed them together. */
  lemma AuthorizationVerifiesIff(c: Crypto, t: ChannelTerms, coin: Bytes32, e: LedgerEntry, signature: Bytes96)
    ensures VerifyAuthorization(c, t, coin, e, signature).Pass? <==>
            && ValidateEntry(c, e).Pass? && ValidTerms(c, t)
            && Verifies(c, t.userPublicKey, c.sha256(AuthorizationPreimage(t, c.sha256(TermsPreimage(t)), coin, e)),
                        signature)
  {
    VerifyHashIff(c, t.userPublicKey, AuthorizationDigest(c, t, coin, e), signature);
  }

  /** The HUB's signature on a checkpoint that is valid for the terms. */
  predicate StateSigned(c: Crypto, t: ChannelTerms, s: OfficialState) {
    && ValidateCheckpoint(c, t, s.checkpoint).Pass?
    && Verifies(c, t.hubStatePublicKeyA, c.sha256(HubStatePreimage(CheckpointDigest(c, t, s.checkpoint))),
                s.hubStateSignature)
  }

  lemma StateVerifiesIff(c: Crypto, t: ChannelTerms, s: OfficialState)
    ensures VerifyOfficialState(c, t, s).Pass? <==> StateSigned(c, t, s)
  {
    VerifyHashIff(c, t.hubStatePublicKeyA, HubStateDigest(c, t, s.checkpoint), s.hubStateSignature);
  }

  /** The HUB's signature on a valid result of the terms' network. */
  predicate ResultSigned(c: Crypto, t: ChannelTerms, s: SignedReservationResult) {
    && s.result.networkId == t.networkId && ValidateResult(s.result).Pass?
    && Verifies(c, t.hubStatePublicKeyA, c.sha256(ResultPreimage(s.result)), s.hubResultSignature)
  }

  lemma ResultVerifiesIff(c: Crypto, t: ChannelTerms, s: SignedReservationResult)
    ensures VerifySignedResult(c, t, s).Pass? <==> ResultSigned(c, t, s)
  {
    VerifyHashIff(c, t.hubStatePublicKeyA, ResultDigest(c, s.result), s.hubResultSignature);
  }

  /** A result is valid when its heights and its sequence are protocol integers and it names a sequence exactly when it
      names a checkpoint. */
  lemma ResultValidIff(r: ReservationResult)
    ensures ValidateResult(r).Pass? <==>
            && r.observedPeakHeight <= MAX_PROTOCOL_U64 && r.acceptanceCutoffHeight <= MAX_PROTOCOL_U64
            && r.scheduledCloseHeight <= MAX_PROTOCOL_U64
            && (r.stateSequence.Some? ==> r.stateSequence.value <= MAX_PROTOCOL_U64)
            && (r.stateSequence.Some? <==> r.checkpointHash.Some?)
  {
  }

  // ---------------------------------------------------------------- the order of two hashes

  lemma {:induction false} ValueFromFront(b: Bytes)
    requires b != []
    ensures FromBE(b) == b[0] as int * Pow256(|b| - 1) + FromBE(b[1..])
  {
    if |b| > 1 {
      var front := b[..|b| - 1];
      ValueFromFront(front);
      assert front[1..] == b[1..][..|b| - 2];
    }
  }

  lemma LeadingDecides(x: nat, y: nat, p: nat, u: nat, v: nat)
    requires u < p && v < p
    ensures x * p + u <= y * p + v <==> x < y || (x == y && u <= v)
  {
    if x < y {
      ScaleApart(x, y, p);
    } else if y < x {
      ScaleApart(y, x, p);
    }
  }

  lemma ScaleApart(x: nat, y: nat, p: nat)
    requires x < y
    ensures x * p + p <= y * p
  {
    assert (y - x - 1) * p >= 0;
  }

  /** Byte order on strings of one length is the order of the numbers they spell. */
  lemma {:induction false} OrderIsNumeric(a: Bytes, b: Bytes)
    requires |a| == |b|
    ensures LessOrEqual(a, b) <==> FromBE(a) <= FromBE(b)
  {
    if a != [] {
      ValueFromFront(a);
      ValueFromFront(b);
      FromBEBound(a[1..]);
      FromBEBound(b[1..]);
      OrderIsNumeric(a[1..], b[1..]);
      LeadingDecides(a[0] as int, b[0] as int, Pow256(|a| - 1), FromBE(a[1..]), FromBE(b[1..]));
    }
  }

  lemma {:induction false} SameNumber(a: Bytes, b: Bytes)
    requires |a| == |b| && FromBE(a) == FromBE(b)
    ensures a == b
  {
    ToFromBE(a);
    ToFromBE(b);
  }

  lemma OneWay(a: Bytes, b: Bytes)
    requires |a| == |b|
    ensures FromBE(a) < FromBE(b) ==> LessOrEqual(a, b) && !LessOrEqual(b, a)
    ensures FromBE(b) < FromBE(a) ==> LessOrEqual(b, a) && !LessOrEqual(a, b)
  {
    OrderIsNumeric(a, b);
    OrderIsNumeric(b, a);
  }

  // ---------------------------------------------------------------- evidence

  /** Two checkpoints of one coin, terms and sequence, both signed, the one of the smaller hash first. */
  predicate DoublySigned(c: Crypto, t: ChannelTerms, first: OfficialState, second: OfficialState) {
    && StateSigned(c, t, first) && StateSigned(c, t, second)
    && first.checkpoint.fundingCoinId == second.checkpoint.fundingCoinId
    && first.checkpoint.stateSequence == second.checkpoint.stateSequence
    && FromBE(CheckpointDigest(c, t, first.checkpoint)) < FromBE(CheckpointDigest(c, t, second.checkpoint))
  }

  /** Double-sign evidence validates exactly when it shows that; and then the checkpoints differ. */
  lemma DoubleSignValidIff(c: Crypto, t: ChannelTerms, e: DoubleSignEvidence)
    ensures ValidateDoubleSign(c, t, e).Pass? <==> DoublySigned(c, t, e.first, e.second)
    ensures DoublySigned(c, t, e.first, e.second) ==> e.first.checkpoint != e.second.checkpoint
  {
    var a, b := CheckpointDigest(c, t, e.first.checkpoint), CheckpointDigest(c, t, e.second.checkpoint);
    StateVerifiesIff(c, t, e.first);
    StateVerifiesIff(c, t, e.second);
    OrderIsNumeric(a, b);
    if FromBE(a) == FromBE(b) {
      SameNumber(a, b);
    }
    CheckpointFacts(c, t, e.first.checkpoint);
    CheckpointFacts(c, t, e.second.checkpoint);
  }

  /** Two results of one reservation, both signed, the one of the smaller hash first. */
  predicate Contradicting(c: Crypto, t: ChannelTerms, first: SignedReservationResult, second: SignedReservationResult) {
    && ResultSigned(c, t, first) && ResultSigned(c, t, second)
    && first.result.fundingCoinId == second.result.fundingCoinId
    && first.result.reservationNonce == second.result.reservationNonce
    && FromBE(ResultDigest(c, first.result)) < FromBE(ResultDigest(c, second.result))
  }

  lemma ConflictValidIff(c: Crypto, t: ChannelTerms, e: ConflictingResultEvidence)
    ensures ValidateConflict(c, t, e).Pass? <==> Contradicting(c, t, e.first, e.second)
    ensures Contradicting(c, t, e.first, e.second) ==> e.first.result != e.second.result
  {
    var a, b := ResultDigest(c, e.first.result), ResultDigest(c, e.second.result);
    ResultVerifiesIff(c, t, e.first);
    ResultVerifiesIff(c, t, e.second);
    OrderIsNumeric(a, b);
    if FromBE(a) == FromBE(b) {
      SameNumber(a, b);
    }
  }

  /** `DoubleSignEvidence::new`: puts the smaller hash first, then validates. */
  function MakeDoubleSign(c: Crypto, t: ChannelTerms, first: OfficialState, second: OfficialState)
    : Result<DoubleSignEvidence, ProtocolError>
  {
    var a :- CheckpointHash(c, t, first.checkpoint);
    var b :- CheckpointHash(c, t, second.checkpoint);
    var e := if LessOrEqual(a, b) then DoubleSignEvidence(first, second) else DoubleSignEvidence(second, first);
    :- ValidateDoubleSign(c, t, e);
    Success(e)
  }

  /** Evidence can be made of two states exactly when both are signed, for one coin and sequence, with different hashes;
      in whatever order they are given, it is the same evidence, and it validates. */
  lemma DoubleSignMadeIff(c: Crypto, t: ChannelTerms, x: OfficialState, y: OfficialState)
    ensures MakeDoubleSign(c, t, x, y).Success? <==> DoublySigned(c, t, x, y) || DoublySigned(c, t, y, x)
    ensures MakeDoubleSign(c, t, x, y).Success? ==>
              && MakeDoubleSign(c, t, y, x) == MakeDoubleSign(c, t, x, y)
              && ValidateDoubleSign(c, t, MakeDoubleSign(c, t, x, y).value).Pass?
  {
    var a, b := CheckpointDigest(c, t, x.checkpoint), CheckpointDigest(c, t, y.checkpoint);
    DoubleSignValidIff(c, t, DoubleSignEvidence(x, y));
    DoubleSignValidIff(c, t, DoubleSignEvidence(y, x));
    OneWay(a, b);
  }

  /** `ConflictingResultEvidence::new`. */
  function MakeConflict(c: Crypto, t: ChannelTerms, first: SignedReservationResult, second: SignedReservationResult)
    : Result<ConflictingResultEvidence, ProtocolError>
  {
    var a :- ResultHash(c, first.result);
    var b :- ResultHash(c, second.result);
    var e := if LessOrEqual(a, b) then ConflictingResultEvidence(first, second)
             else ConflictingResultEvidence(second, first);
    :- ValidateConflict(c, t, e);
    Success(e)
  }

  lemma ConflictMadeIff(c: Crypto, t: ChannelTerms, x: SignedReservationResult, y: SignedReservationResult)
    ensures MakeConflict(c, t, x, y).Success? <==> Contradicting(c, t, x, y) || Contradicting(c, t, y, x)
    ensures MakeConflict(c, t, x, y).Success? ==>
              && MakeConflict(c, t, y, x) == MakeConflict(c, t, x, y)
              && ValidateConflict(c, t, MakeConflict(c, t, x, y).value).Pass?
  {
    var a, b := ResultDigest(c, x.result), ResultDigest(c, y.result);
    ConflictValidIff(c, t, ConflictingResultEvidence(x, y));
    ConflictValidIff(c, t, ConflictingResultEvidence(y, x));
    OneWay(a, b);
  }
}
