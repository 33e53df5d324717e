/** The canonical decoders as parsers, and the two laws of every wire type: decoding an encoding followed by
    any tail returns the value and the tail, and bytes that decode re-encode to exactly themselves. */
module Codec {
  import opened ByteStrings
  import opened Protocol
  import opened Encoding
  import opened Types

  // ---------------------------------------------------------------- parsers

  function ParseTerms(c: Crypto, s0: Bytes): Parsed<ChannelTerms> {
    var (version, s1) :- ReadU16(s0);
    if version != PROTOCOL_VERSION then Bad(IntegerRange("protocol_version")) else
    var (networkId, s2) :- Read32(s1);
    var (acceptance, s3) :- ReadU64(s2);
    var (freeze, s4) :- ReadU64(s3);
    var (closeDelay, s5) :- ReadU64(s4);
    var (challenge, s6) :- ReadU64(s5);
    var (user, s7) :- Read48(s6);
    var (hub, s8) :- Read48(s7);
    var (rules, s9) :- Read32(s8);
    var (amount, s10) :- ReadU64(s9);
    var (remainder, s11) :- Read32(s10);
    var (maxEntries, s12) :- ReadU64(s11);
    var terms := ChannelTerms(networkId, acceptance, freeze, closeDelay, challenge, user, hub, rules, amount,
                              remainder, maxEntries);
    Checked(ValidateTerms(c, terms), terms, s12)
  }

  function ParseEntry(c: Crypto, s0: Bytes): Parsed<LedgerEntry> {
    var (merchant, s1) :- Read32(s0);
    var (key, s2) :- Read48(s1);
    var (amount, s3) :- ReadU64(s2);
    var (nonce, s4) :- Read32(s3);
    var entry := LedgerEntry(merchant, key, amount, nonce);
    Checked(ValidateEntry(c, entry), entry, s4)
  }

  function ParseCheckpoint(s0: Bytes): Parsed<LedgerCheckpoint> {
    var (coin, s1) :- Read32(s0);
    var (termsHash, s2) :- Read32(s1);
    var (sequence, s3) :- ReadU64(s2);
    var (previous, s4) :- Read32(s3);
    var (root, s5) :- Read32(s4);
    var (count, s6) :- ReadU64(s5);
    var (reserved, s7) :- ReadU64(s6);
    var (remainder, s8) :- ReadU64(s7);
    Ok(LedgerCheckpoint(coin, termsHash, sequence, previous, root, count, reserved, remainder), s8)
  }

  function ParseOfficialState(c: Crypto, s0: Bytes): Parsed<OfficialState> {
    var (checkpoint, s1) :- ParseCheckpoint(s0);
    var (signature, s2) :- Read96(s1);
    Checked(ParseSignature(c, signature), OfficialState(checkpoint, signature), s2)
  }

  function ParseEntries(c: Crypto, s0: Bytes, count: nat): Parsed<seq<LedgerEntry>> {
    if count == 0 then Ok([], s0) else
    var (entry, s1) :- ParseEntry(c, s0);
    var (others, s2) :- ParseEntries(c, s1, count - 1);
    Ok([entry] + others, s2)
  }

  function ParseSignatures(c: Crypto, s0: Bytes, count: nat): Parsed<seq<Bytes96>> {
    if count == 0 then Ok([], s0) else
    var (signature, s1) :- Read96(s0);
    if ParseSignature(c, signature).Fail? then Bad(ParseSignature(c, signature).error) else
    var (others, s2) :- ParseSignatures(c, s1, count - 1);
    Ok([signature] + others, s2)
  }

  function ParsePackage(c: Crypto, s0: Bytes): Parsed<RecoveryPackage> {
    var (coin, s1) :- Read32(s0);
    var (puzzle, s2) :- ReadBlob(s1, MAX_CANONICAL_BLOB_BYTES);
    var (amount, s3) :- ReadU64(s2);
    var (terms, s4) :- ParseTerms(c, s3);
    var (state, s5) :- ParseOfficialState(c, s4);
    var (entryCount, s6) :- ReadU32(s5);
    if entryCount > MAX_LEDGER_ENTRIES then Bad(LedgerFull) else
    var (entries, s7) :- ParseEntries(c, s6, entryCount);
    var (signatureCount, s8) :- ReadU32(s7);
    if signatureCount > MAX_LEDGER_ENTRIES then Bad(LedgerFull) else
    var (signatures, s9) :- ParseSignatures(c, s8, signatureCount);
    Ok(RecoveryPackage(coin, puzzle, amount, terms, state, entries, signatures), s9)
  }

  function ParseConfirmation(s0: Bytes): Parsed<DeliveryConfirmation> {
    var (version, s1) :- ReadU16(s0);
    if version != PROTOCOL_VERSION then Bad(IntegerRange("protocol_version")) else
    var (networkId, s2) :- Read32(s1);
    var (coin, s3) :- Read32(s2);
    var (termsHash, s4) :- Read32(s3);
    var (sequence, s5) :- ReadU64(s4);
    var (checkpointHash, s6) :- Read32(s5);
    var (index, s7) :- ReadU64(s6);
    var (authorization, s8) :- Read32(s7);
    var (content, s9) :- Read32(s8);
    var confirmation := DeliveryConfirmation(networkId, coin, termsHash, sequence, checkpointHash, index,
                                             authorization, content);
    Checked(ValidateConfirmation(confirmation), confirmation, s9)
  }

  function ParseStatus(s0: Bytes): Parsed<ReservationStatus> {
    var (code, s1) :- ReadU16(s0);
    match StatusFromCode(code)
    case Success(status) => Ok(status, s1)
    case Failure(error) => Bad(error)
  }

  function ParseOptionU64(s0: Bytes): Parsed<Option<u64>> {
    var (tag, s1) :- ReadU8(s0);
    if tag == 0 then Ok(None, s1)
    else if tag == 1 then (var (v, s2) :- ReadU64(s1); Ok(Some(v), s2))
    else Bad(InvalidOption(tag))
  }

  function ParseOption32(s0: Bytes): Parsed<Option<Bytes32>> {
    var (tag, s1) :- ReadU8(s0);
    if tag == 0 then Ok(None, s1)
    else if tag == 1 then (var (v, s2) :- Read32(s1); Ok(Some(v), s2))
    else Bad(InvalidOption(tag))
  }

  /** The fields of a reservation result that identify the request it answers. */
  datatype Identity = Identity(networkId: Bytes32, requestId: Bytes32, coin: Bytes32, nonce: Bytes32,
                               authorization: Bytes32)

  function ParseIdentity(s0: Bytes): Parsed<Identity> {
    var (version, s1) :- ReadU16(s0);
    if version != PROTOCOL_VERSION then Bad(IntegerRange("protocol_version")) else
    var (networkId, s2) :- Read32(s1);
    var (requestId, s3) :- Read32(s2);
    var (coin, s4) :- Read32(s3);
    var (nonce, s5) :- Read32(s4);
    var (authorization, s6) :- Read32(s5);
    Ok(Identity(networkId, requestId, coin, nonce, authorization), s6)
  }

  function ParseResult(s0: Bytes): Parsed<ReservationResult> {
    var (identity, s6) :- ParseIdentity(s0);
    ParseDecision(s6, identity)
  }

  /** The second half of a reservation result: everything after the fields that identify the request. */
  function ParseDecision(s6: Bytes, id: Identity): Parsed<ReservationResult> {
    var (status, s7) :- ParseStatus(s6);
    var (sequence, s8) :- ParseOptionU64(s7);
    var (checkpointHash, s9) :- ParseOption32(s8);
    var (observed, s10) :- ReadU64(s9);
    var (cutoff, s11) :- ReadU64(s10);
    var (close, s12) :- ReadU64(s11);
    var (written, s13) :- ReadBool(s12);
    var result := ReservationResult(id.networkId, id.requestId, id.coin, id.nonce, id.authorization, status,
                                    sequence, checkpointHash, observed, cutoff, close, written);
    Checked(ValidateResult(result), result, s13)
  }

  function IdentityOf(r: ReservationResult): Identity {
    Identity(r.networkId, r.requestId, r.fundingCoinId, r.reservationNonce, r.authorizationHash)
  }

  function IdentityThen(id: Identity, tail: Bytes): Bytes {
    U16(PROTOCOL_VERSION) + (id.networkId + (id.requestId + (id.coin + (id.nonce + (id.authorization + tail)))))
  }

  function DecisionThen(r: ReservationResult, tail: Bytes): Bytes {
    U16(StatusCode(r.status)) + (EncodeOptionU64(r.stateSequence) + (EncodeOption32(r.checkpointHash) + (
    U64(r.observedPeakHeight) + (U64(r.acceptanceCutoffHeight) + (U64(r.scheduledCloseHeight) + (
    PutBool(r.ledgerWritten) + tail))))))
  }

  function ParseSignedResult(c: Crypto, s0: Bytes): Parsed<SignedReservationResult> {
    var (result, s1) :- ParseResult(s0);
    var (signature, s2) :- Read96(s1);
    Checked(ParseSignature(c, signature), SignedReservationResult(result, signature), s2)
  }

  function ParseDoubleSign(c: Crypto, s0: Bytes): Parsed<DoubleSignEvidence> {
    var (first, s1) :- ParseOfficialState(c, s0);
    var (second, s2) :- ParseOfficialState(c, s1);
    Ok(DoubleSignEvidence(first, second), s2)
  }

  function ParseConflict(c: Crypto, s0: Bytes): Parsed<ConflictingResultEvidence> {
    var (first, s1) :- ParseSignedResult(c, s0);
    var (second, s2) :- ParseSignedResult(c, s1);
    Ok(ConflictingResultEvidence(first, second), s2)
  }

  // ---------------------------------------------------------------- encodings followed by a tail

  lemma TermsTail(t: ChannelTerms, tail: Bytes)
    ensures EncodeTerms(t) + tail ==
            U16(PROTOCOL_VERSION) + (t.networkId + (U64(t.acceptanceBlocks) + (U64(t.freezeBlocks) + (
            U64(t.closeDelayBlocks) + (U64(t.challengeBlocks) + (t.userPublicKey + (t.hubStatePublicKeyA + (
            t.stateRulesHash + (U64(t.fundingAmount) + (t.userRemainderPuzzleHash + (U64(t.maxLedgerEntries)
            + tail)))))))))))
  {
    var y := t.userRemainderPuzzleHash + U64(t.maxLedgerEntries);
    var x := t.userPublicKey + (t.hubStatePublicKeyA + (t.stateRulesHash + (U64(t.fundingAmount) + y)));
    var w := U64(t.closeDelayBlocks) + (U64(t.challengeBlocks) + x);
    Push(U16(PROTOCOL_VERSION), t.networkId, U64(t.acceptanceBlocks), U64(t.freezeBlocks), w, tail);
    Assoc(U64(t.closeDelayBlocks), U64(t.challengeBlocks) + x, tail);
    Assoc(U64(t.challengeBlocks), x, tail);
    Push(t.userPublicKey, t.hubStatePublicKeyA, t.stateRulesHash, U64(t.fundingAmount), y, tail);
    Assoc(t.userRemainderPuzzleHash, U64(t.maxLedgerEntries), tail);
  }

  lemma EntryTail(e: LedgerEntry, tail: Bytes)
    ensures EncodeEntry(e) + tail ==
            e.merchantPuzzleHash + (e.merchantReceiptPublicKey + (U64(e.amount) + (e.reservationNonce + tail)))
  {
    Assoc(U64(e.amount), e.reservationNonce, tail);
    Assoc(e.merchantReceiptPublicKey, U64(e.amount) + e.reservationNonce, tail);
    Assoc(e.merchantPuzzleHash, e.merchantReceiptPublicKey + (U64(e.amount) + e.reservationNonce), tail);
  }

  lemma CheckpointTail(k: LedgerCheckpoint, tail: Bytes)
    ensures EncodeCheckpoint(k) + tail ==
            k.fundingCoinId + (k.channelTermsHash + (U64(k.stateSequence) + (k.previousCheckpointHash + (
            k.manifestRoot + (U64(k.entryCount) + (U64(k.reservedTotal) + (U64(k.userRemainder) + tail)))))))
  {
    var x := k.manifestRoot + (U64(k.entryCount) + (U64(k.reservedTotal) + U64(k.userRemainder)));
    Push(k.fundingCoinId, k.channelTermsHash, U64(k.stateSequence), k.previousCheckpointHash, x, tail);
    Assoc(U64(k.reservedTotal), U64(k.userRemainder), tail);
    Assoc(U64(k.entryCount), U64(k.reservedTotal) + U64(k.userRemainder), tail);
    Assoc(k.manifestRoot, U64(k.entryCount) + (U64(k.reservedTotal) + U64(k.userRemainder)), tail);
  }

  lemma PackageTail(p: RecoveryPackage, tail: Bytes)
    requires Encodable(p)
    ensures EncodePackage(p) + tail ==
            p.fundingCoinId + (PutBlob(p.fundingPuzzleReveal) + (U64(p.fundingAmount) + (EncodeTerms(p.channelTerms)
            + (EncodeOfficialState(p.officialState) + (U32(|p.entries|) + (EncodeEntries(p.entries)
            + (U32(|p.userAuthorizationSignatures|) + (EncodeSignatures(p.userAuthorizationSignatures) + tail))))))))
  {
    PushEight(p.fundingCoinId, PutBlob(p.fundingPuzzleReveal), U64(p.fundingAmount), EncodeTerms(p.channelTerms),
              EncodeOfficialState(p.officialState), U32(|p.entries|), EncodeEntries(p.entries),
              U32(|p.userAuthorizationSignatures|), EncodeSignatures(p.userAuthorizationSignatures), tail);
  }

  lemma ConfirmationTail(d: DeliveryConfirmation, tail: Bytes)
    ensures EncodeConfirmation(d) + tail ==
            U16(PROTOCOL_VERSION) + (d.networkId + (d.fundingCoinId + (d.channelTermsHash + (U64(d.stateSequence) + (
            d.checkpointHash + (U64(d.entryIndex) + (d.authorizationHash + (d.recoveryPackageContentHash + tail))))))))
  {
    PushEight(U16(PROTOCOL_VERSION), d.networkId, d.fundingCoinId, d.channelTermsHash, U64(d.stateSequence),
              d.checkpointHash, U64(d.entryIndex), d.authorizationHash, d.recoveryPackageContentHash, tail);
  }

  lemma ResultTail(r: ReservationResult, tail: Bytes)
    ensures EncodeResult(r) + tail == IdentityThen(IdentityOf(r), DecisionThen(r, tail))
  {
    var x := EncodeOption32(r.checkpointHash) + (U64(r.observedPeakHeight) + (U64(r.acceptanceCutoffHeight)
             + (U64(r.scheduledCloseHeight) + PutBool(r.ledgerWritten))));
    PushEight(U16(PROTOCOL_VERSION), r.networkId, r.requestId, r.fundingCoinId, r.reservationNonce,
              r.authorizationHash, U16(StatusCode(r.status)), EncodeOptionU64(r.stateSequence), x, tail);
    Push(EncodeOption32(r.checkpointHash), U64(r.observedPeakHeight), U64(r.acceptanceCutoffHeight),
         U64(r.scheduledCloseHeight), PutBool(r.ledgerWritten), tail);
  }

  lemma PushEight(a: Bytes, b: Bytes, c: Bytes, d: Bytes, e: Bytes, f: Bytes, g: Bytes, h: Bytes, x: Bytes, t: Bytes)
    ensures (a + (b + (c + (d + (e + (f + (g + (h + x)))))))) + t ==
            a + (b + (c + (d + (e + (f + (g + (h + (x + t))))))))
  {
    Push(a, b, c, d, e + (f + (g + (h + x))), t);
    Push(e, f, g, h, x, t);
  }

  // ---------------------------------------------------------------- decode after encode

  lemma TermsRoundTrip(c: Crypto, t: ChannelTerms, tail: Bytes)
    requires ValidTerms(c, t)
    ensures ParseTerms(c, EncodeTerms(t) + tail) == Ok(t, tail)
  {
    TermsTail(t, tail);
    U64RoundTrip(t.maxLedgerEntries, tail);
    var t11 := U64(t.maxLedgerEntries) + tail;
    Read32RoundTrip(t.userRemainderPuzzleHash, t11);
    var t10 := t.userRemainderPuzzleHash + t11;
    U64RoundTrip(t.fundingAmount, t10);
    var t9 := U64(t.fundingAmount) + t10;
    Read32RoundTrip(t.stateRulesHash, t9);
    var t8 := t.stateRulesHash + t9;
    Read48RoundTrip(t.hubStatePublicKeyA, t8);
    var t7 := t.hubStatePublicKeyA + t8;
    Read48RoundTrip(t.userPublicKey, t7);
    var t6 := t.userPublicKey + t7;
    U64RoundTrip(t.challengeBlocks, t6);
    var t5 := U64(t.challengeBlocks) + t6;
    U64RoundTrip(t.closeDelayBlocks, t5);
    var t4 := U64(t.closeDelayBlocks) + t5;
    U64RoundTrip(t.freezeBlocks, t4);
    var t3 := U64(t.freezeBlocks) + t4;
    U64RoundTrip(t.acceptanceBlocks, t3);
    var t2 := U64(t.acceptanceBlocks) + t3;
    Read32RoundTrip(t.networkId, t2);
    var t1 := t.networkId + t2;
    U16RoundTrip(PROTOCOL_VERSION, t1);
  }

  lemma EntryRoundTrip(c: Crypto, e: LedgerEntry, tail: Bytes)
    requires ValidateEntry(c, e).Pass?
    ensures ParseEntry(c, EncodeEntry(e) + tail) == Ok(e, tail)
  {
    EntryTail(e, tail);
    PrimitiveRoundTrips();
  }

  lemma CheckpointRoundTrip(k: LedgerCheckpoint, tail: Bytes)
    ensures ParseCheckpoint(EncodeCheckpoint(k) + tail) == Ok(k, tail)
  {
    CheckpointTail(k, tail);
    PrimitiveRoundTrips();
  }

  lemma OfficialStateRoundTrip(c: Crypto, s: OfficialState, tail: Bytes)
    requires ParseSignature(c, s.hubStateSignature).Pass?
    ensures ParseOfficialState(c, EncodeOfficialState(s) + tail) == Ok(s, tail)
  {
    CheckpointRoundTrip(s.checkpoint, s.hubStateSignature + tail);
    Assoc(EncodeCheckpoint(s.checkpoint), s.hubStateSignature, tail);
    PrimitiveRoundTrips();
  }

  lemma EntriesJoin(c: Crypto, s: Bytes, count: nat, entry: LedgerEntry, s1: Bytes, others: seq<LedgerEntry>,
                    rest: Bytes)
    requires count > 0 && ParseEntry(c, s) == Ok(entry, s1) && ParseEntries(c, s1, count - 1) == Ok(others, rest)
    ensures ParseEntries(c, s, count) == Ok([entry] + others, rest)
  {
  }

  lemma {:induction false} EntriesRoundTrip(c: Crypto, entries: seq<LedgerEntry>, tail: Bytes)
    requires forall i :: 0 <= i < |entries| ==> ValidateEntry(c, entries[i]).Pass?
    ensures ParseEntries(c, EncodeEntries(entries) + tail, |entries|) == Ok(entries, tail)
  {
    if entries == [] {
      assert EncodeEntries(entries) + tail == tail;
    } else {
      var others := EncodeEntries(entries[1..]) + tail;
      EntryRoundTrip(c, entries[0], others);
      EntriesRoundTrip(c, entries[1..], tail);
      Assoc(EncodeEntry(entries[0]), EncodeEntries(entries[1..]), tail);
      EntriesJoin(c, EncodeEntries(entries) + tail, |entries|, entries[0], others, entries[1..], tail);
      assert entries == [entries[0]] + entries[1..];
    }
  }

  lemma {:induction false} SignaturesRoundTrip(c: Crypto, signatures: seq<Bytes96>, tail: Bytes)
    requires forall i :: 0 <= i < |signatures| ==> ParseSignature(c, signatures[i]).Pass?
    ensures ParseSignatures(c, EncodeSignatures(signatures) + tail, |signatures|) == Ok(signatures, tail)
  {
    if signatures == [] {
      assert EncodeSignatures(signatures) + tail == tail;
    } else {
      SignaturesRoundTrip(c, signatures[1..], tail);
      Assoc(signatures[0], EncodeSignatures(signatures[1..]), tail);
      PrimitiveRoundTrips();
      assert signatures == [signatures[0]] + signatures[1..];
    }
  }

  /** What the package decoder insists on; `RecoveryPackage::validate` implies all of it. */
  predicate DecodablePackage(c: Crypto, p: RecoveryPackage) {
    && |p.fundingPuzzleReveal| <= MAX_CANONICAL_BLOB_BYTES
    && ValidTerms(c, p.channelTerms)
    && ParseSignature(c, p.officialState.hubStateSignature).Pass?
    && |p.entries| <= 64
    && |p.userAuthorizationSignatures| <= 64
    && (forall i :: 0 <= i < |p.entries| ==> ValidateEntry(c, p.entries[i]).Pass?)
    && (forall i :: 0 <= i < |p.userAuthorizationSignatures| ==>
          ParseSignature(c, p.userAuthorizationSignatures[i]).Pass?)
  }

  lemma BlobRoundTrip(blob: Bytes, limit: nat, tail: Bytes)
    requires |blob| <= limit && |blob| < 0x1_0000_0000
    ensures ReadBlob(PutBlob(blob) + tail, limit) == Ok(blob, tail)
  {
    U32RoundTrip(|blob|, blob + tail);
    Assoc(U32(|blob|), blob, tail);
    TakesWhole(blob, tail);
  }

  /** A package whose fields parse one after the other parses. */
  lemma PackageParses(c: Crypto, p: RecoveryPackage, s0: Bytes, s1: Bytes, s2: Bytes, s3: Bytes, s4: Bytes, s5: Bytes,
                      s6: Bytes, s7: Bytes, s8: Bytes, s9: Bytes)
    requires |p.entries| <= MAX_LEDGER_ENTRIES && |p.userAuthorizationSignatures| <= MAX_LEDGER_ENTRIES
    requires Read32(s0) == Ok(p.fundingCoinId, s1)
    requires ReadBlob(s1, MAX_CANONICAL_BLOB_BYTES) == Ok(p.fundingPuzzleReveal, s2)
    requires ReadU64(s2) == Ok(p.fundingAmount, s3)
    requires ParseTerms(c, s3) == Ok(p.channelTerms, s4)
    requires ParseOfficialState(c, s4) == Ok(p.officialState, s5)
    requires ReadU32(s5) == Ok(|p.entries|, s6)
    requires ParseEntries(c, s6, |p.entries|) == Ok(p.entries, s7)
    requires ReadU32(s7) == Ok(|p.userAuthorizationSignatures|, s8)
    requires ParseSignatures(c, s8, |p.userAuthorizationSignatures|) == Ok(p.userAuthorizationSignatures, s9)
    ensures ParsePackage(c, s0) == Ok(p, s9)
  {
  }

  lemma PackageRoundTrip(c: Crypto, p: RecoveryPackage, tail: Bytes)
    requires DecodablePackage(c, p)
    ensures ParsePackage(c, EncodePackage(p) + tail) == Ok(p, tail)
  {
    var t9 := EncodeSignatures(p.userAuthorizationSignatures) + tail;
    var t8 := U32(|p.userAuthorizationSignatures|) + t9;
    var t7 := EncodeEntries(p.entries) + t8;
    var t6 := U32(|p.entries|) + t7;
    var t5 := EncodeOfficialState(p.officialState) + t6;
    var t4 := EncodeTerms(p.channelTerms) + t5;
    var t3 := U64(p.fundingAmount) + t4;
    BlobRoundTrip(p.fundingPuzzleReveal, MAX_CANONICAL_BLOB_BYTES, t3);
    TermsRoundTrip(c, p.channelTerms, t5);
    OfficialStateRoundTrip(c, p.officialState, t6);
    EntriesRoundTrip(c, p.entries, t8);
    SignaturesRoundTrip(c, p.userAuthorizationSignatures, tail);
    Read32RoundTrip(p.fundingCoinId, PutBlob(p.fundingPuzzleReveal) + t3);
    U64RoundTrip(p.fundingAmount, t4);
    U32RoundTrip(|p.entries|, t7);
    U32RoundTrip(|p.userAuthorizationSignatures|, t9);
    PackageTail(p, tail);
    PackageParses(c, p, EncodePackage(p) + tail, PutBlob(p.fundingPuzzleReveal) + t3, t3, t4, t5, t6, t7, t8, t9, tail);
  }

  lemma ConfirmationRoundTrip(d: DeliveryConfirmation, tail: Bytes)
    requires ValidateConfirmation(d).Pass?
    ensures ParseConfirmation(EncodeConfirmation(d) + tail) == Ok(d, tail)
  {
    ConfirmationTail(d, tail);
    Read32RoundTrip(d.recoveryPackageContentHash, tail);
    var t8 := d.recoveryPackageContentHash + tail;
    Read32RoundTrip(d.authorizationHash, t8);
    var t7 := d.authorizationHash + t8;
    U64RoundTrip(d.entryIndex, t7);
    var t6 := U64(d.entryIndex) + t7;
    Read32RoundTrip(d.checkpointHash, t6);
    var t5 := d.checkpointHash + t6;
    U64RoundTrip(d.stateSequence, t5);
    var t4 := U64(d.stateSequence) + t5;
    Read32RoundTrip(d.channelTermsHash, t4);
    var t3 := d.channelTermsHash + t4;
    Read32RoundTrip(d.fundingCoinId, t3);
    var t2 := d.fundingCoinId + t3;
    Read32RoundTrip(d.networkId, t2);
    var t1 := d.networkId + t2;
    U16RoundTrip(PROTOCOL_VERSION, t1);
  }

  lemma OptionRoundTrips()
    ensures forall o: Option<u64>, s: Bytes {:trigger ParseOptionU64(EncodeOptionU64(o) + s)} ::
              ParseOptionU64(EncodeOptionU64(o) + s) == Ok(o, s)
    ensures forall o: Option<Bytes32>, s: Bytes {:trigger ParseOption32(EncodeOption32(o) + s)} ::
              ParseOption32(EncodeOption32(o) + s) == Ok(o, s)
    ensures forall v: ReservationStatus, s: Bytes {:trigger ParseStatus(U16(StatusCode(v)) + s)} ::
              ParseStatus(U16(StatusCode(v)) + s) == Ok(v, s)
  {
    PrimitiveRoundTrips();
    forall o: Option<u64>, s: Bytes | o.Some? ensures EncodeOptionU64(o) + s == [1] + (U64(o.value) + s) {
      Assoc([1], U64(o.value), s);
    }
    forall o: Option<Bytes32>, s: Bytes | o.Some? ensures EncodeOption32(o) + s == [1] + (o.value + s) {
      Assoc([1], o.value, s);
    }
  }

  lemma IdentityRoundTrip(id: Identity, tail: Bytes)
    ensures ParseIdentity(IdentityThen(id, tail)) == Ok(id, tail)
  {
    PrimitiveRoundTrips();
  }

  lemma DecisionRoundTrip(r: ReservationResult, tail: Bytes)
    requires ValidateResult(r).Pass?
    ensures ParseDecision(DecisionThen(r, tail), IdentityOf(r)) == Ok(r, tail)
  {
    var s12 := PutBool(r.ledgerWritten) + tail;
    var s11 := U64(r.scheduledCloseHeight) + s12;
    var s10 := U64(r.acceptanceCutoffHeight) + s11;
    var s9 := U64(r.observedPeakHeight) + s10;
    var s8 := EncodeOption32(r.checkpointHash) + s9;
    var s7 := EncodeOptionU64(r.stateSequence) + s8;
    OptionRoundTrips();
    assert ParseStatus(U16(StatusCode(r.status)) + s7) == Ok(r.status, s7);
    assert ParseOptionU64(s7) == Ok(r.stateSequence, s8) && ParseOption32(s8) == Ok(r.checkpointHash, s9);
    U64RoundTrip(r.observedPeakHeight, s10);
    U64RoundTrip(r.acceptanceCutoffHeight, s11);
    U64RoundTrip(r.scheduledCloseHeight, s12);
    TakesWhole(PutBool(r.ledgerWritten), tail);
  }

  lemma ResultRoundTrip(r: ReservationResult, tail: Bytes)
    requires ValidateResult(r).Pass?
    ensures ParseResult(EncodeResult(r) + tail) == Ok(r, tail)
  {
    ResultTail(r, tail);
    IdentityRoundTrip(IdentityOf(r), DecisionThen(r, tail));
    DecisionRoundTrip(r, tail);
  }

  lemma SignedResultRoundTrip(c: Crypto, s: SignedReservationResult, tail: Bytes)
    requires ValidateResult(s.result).Pass? && ParseSignature(c, s.hubResultSignature).Pass?
    ensures ParseSignedResult(c, EncodeSignedResult(s) + tail) == Ok(s, tail)
  {
    ResultRoundTrip(s.result, s.hubResultSignature + tail);
    Assoc(EncodeResult(s.result), s.hubResultSignature, tail);
    PrimitiveRoundTrips();
  }

  lemma DoubleSignRoundTrip(c: Crypto, e: DoubleSignEvidence, tail: Bytes)
    requires ParseSignature(c, e.first.hubStateSignature).Pass? && ParseSignature(c, e.second.hubStateSignature).Pass?
    ensures ParseDoubleSign(c, EncodeDoubleSign(e) + tail) == Ok(e, tail)
  {
    OfficialStateRoundTrip(c, e.first, EncodeOfficialState(e.second) + tail);
    OfficialStateRoundTrip(c, e.second, tail);
    Assoc(EncodeOfficialState(e.first), EncodeOfficialState(e.second), tail);
  }

  lemma ConflictRoundTrip(c: Crypto, e: ConflictingResultEvidence, tail: Bytes)
    requires ValidateResult(e.first.result).Pass? && ParseSignature(c, e.first.hubResultSignature).Pass?
    requires ValidateResult(e.second.result).Pass? && ParseSignature(c, e.second.hubResultSignature).Pass?
    ensures ParseConflict(c, EncodeConflict(e) + tail) == Ok(e, tail)
  {
    SignedResultRoundTrip(c, e.first, EncodeSignedResult(e.second) + tail);
    SignedResultRoundTrip(c, e.second, tail);
    Assoc(EncodeSignedResult(e.first), EncodeSignedResult(e.second), tail);
  }

  // ---------------------------------------------------------------- encode after decode

  lemma TermsCanonical(c: Crypto, s0: Bytes)
    requires ParseTerms(c, s0).Ok?
    ensures s0 == EncodeTerms(ParseTerms(c, s0).value) + ParseTerms(c, s0).rest
    ensures ValidTerms(c, ParseTerms(c, s0).value)
  {
    U16Canonical(s0);
    var s1 := ReadU16(s0).rest;
    Read32Canonical(s1);
    var s2 := Read32(s1).rest;
    U64Canonical(s2);
    var s3 := ReadU64(s2).rest;
    U64Canonical(s3);
    var s4 := ReadU64(s3).rest;
    U64Canonical(s4);
    var s5 := ReadU64(s4).rest;
    U64Canonical(s5);
    var s6 := ReadU64(s5).rest;
    Read48Canonical(s6);
    var s7 := Read48(s6).rest;
    Read48Canonical(s7);
    var s8 := Read48(s7).rest;
    Read32Canonical(s8);
    var s9 := Read32(s8).rest;
    U64Canonical(s9);
    var s10 := ReadU64(s9).rest;
    Read32Canonical(s10);
    var s11 := Read32(s10).rest;
    U64Canonical(s11);
    TermsTail(ParseTerms(c, s0).value, ParseTerms(c, s0).rest);
  }

  lemma EntryCanonical(c: Crypto, s: Bytes)
    requires ParseEntry(c, s).Ok?
    ensures s == EncodeEntry(ParseEntry(c, s).value) + ParseEntry(c, s).rest
    ensures ValidateEntry(c, ParseEntry(c, s).value).Pass?
  {
    PrimitivesCanonical();
    EntryTail(ParseEntry(c, s).value, ParseEntry(c, s).rest);
  }

  lemma CheckpointCanonical(s: Bytes)
    requires ParseCheckpoint(s).Ok?
    ensures s == EncodeCheckpoint(ParseCheckpoint(s).value) + ParseCheckpoint(s).rest
  {
    PrimitivesCanonical();
    CheckpointTail(ParseCheckpoint(s).value, ParseCheckpoint(s).rest);
  }

  lemma OfficialStateCanonical(c: Crypto, s: Bytes)
    requires ParseOfficialState(c, s).Ok?
    ensures s == EncodeOfficialState(ParseOfficialState(c, s).value) + ParseOfficialState(c, s).rest
    ensures ParseSignature(c, ParseOfficialState(c, s).value.hubStateSignature).Pass?
  {
    CheckpointCanonical(s);
    PrimitivesCanonical();
    var p := ParseOfficialState(c, s);
    Assoc(EncodeCheckpoint(p.value.checkpoint), p.value.hubStateSignature, p.rest);
  }

  /** A list of entries read off the front of a string: that many valid ones, and their encoding is what was read. */
  ghost predicate EntriesRead(c: Crypto, s: Bytes, count: nat, entries: seq<LedgerEntry>, rest: Bytes) {
    && |entries| == count && s == EncodeEntries(entries) + rest
    && (forall i :: 0 <= i < count ==> ValidateEntry(c, entries[i]).Pass?)
  }

  lemma OneMoreRead(c: Crypto, s: Bytes, count: nat, entry: LedgerEntry, s1: Bytes, others: seq<LedgerEntry>,
                    rest: Bytes)
    requires s == EncodeEntry(entry) + s1 && ValidateEntry(c, entry).Pass? && EntriesRead(c, s1, count, others, rest)
    ensures EntriesRead(c, s, count + 1, [entry] + others, rest)
  {
    var entries := [entry] + others;
    assert entries[1..] == others;
    Assoc(EncodeEntry(entry), EncodeEntries(others), rest);
    forall i | 0 <= i < count + 1 ensures ValidateEntry(c, entries[i]).Pass? {
      assert i > 0 ==> entries[i] == others[i - 1];
    }
  }

  /** The first entry of a list that parses, and the rest of it. */
  lemma FirstEntryRead(c: Crypto, s: Bytes, count: nat) returns (entry: LedgerEntry, s1: Bytes)
    requires count > 0 && ParseEntries(c, s, count).Ok?
    ensures s == EncodeEntry(entry) + s1 && ValidateEntry(c, entry).Pass?
    ensures ParseEntries(c, s1, count - 1).Ok?
    ensures ParseEntries(c, s, count)
            == Ok([entry] + ParseEntries(c, s1, count - 1).value, ParseEntries(c, s1, count - 1).rest)
  {
    EntryCanonical(c, s);
    entry, s1 := ParseEntry(c, s).value, ParseEntry(c, s).rest;
  }

  lemma {:induction false} EntriesAreRead(c: Crypto, s: Bytes, count: nat, p: Parsed<seq<LedgerEntry>>)
    requires ParseEntries(c, s, count) == p && p.Ok?
    ensures EntriesRead(c, s, count, p.value, p.rest)
    decreases count
  {
    if count == 0 {
      assert s == [] + s;
    } else {
      var entry, s1 := FirstEntryRead(c, s, count);
      var others := ParseEntries(c, s1, count - 1);
      EntriesAreRead(c, s1, count - 1, others);
      OneMoreRead(c, s, count - 1, entry, s1, others.value, others.rest);
    }
  }

  lemma EntriesCanonical(c: Crypto, s: Bytes, count: nat)
    requires ParseEntries(c, s, count).Ok?
    ensures |ParseEntries(c, s, count).value| == count
    ensures s == EncodeEntries(ParseEntries(c, s, count).value) + ParseEntries(c, s, count).rest
    ensures forall i :: 0 <= i < count ==> ValidateEntry(c, ParseEntries(c, s, count).value[i]).Pass?
  {
    EntriesAreRead(c, s, count, ParseEntries(c, s, count));
  }

  lemma {:induction false} SignaturesCanonical(c: Crypto, s: Bytes, count: nat)
    requires ParseSignatures(c, s, count).Ok?
    ensures |ParseSignatures(c, s, count).value| == count
    ensures s == EncodeSignatures(ParseSignatures(c, s, count).value) + ParseSignatures(c, s, count).rest
    ensures forall i :: 0 <= i < count ==> ParseSignature(c, ParseSignatures(c, s, count).value[i]).Pass?
  {
    if count == 0 {
      assert s == [] + s;
    } else {
      var first := Read96(s);
      PrimitivesCanonical();
      SignaturesCanonical(c, first.rest, count - 1);
      var others := ParseSignatures(c, first.rest, count - 1);
      assert ([first.value] + others.value)[1..] == others.value;
      Assoc(first.value, EncodeSignatures(others.value), others.rest);
    }
  }

  lemma BlobCanonical(s: Bytes, limit: nat)
    requires ReadBlob(s, limit).Ok? && limit < 0x1_0000_0000
    ensures |ReadBlob(s, limit).value| <= limit
    ensures s == PutBlob(ReadBlob(s, limit).value) + ReadBlob(s, limit).rest
  {
    U32Canonical(s);
    var body := ReadU32(s).rest;
    assert body == body[..ReadU32(s).value] + body[ReadU32(s).value..];
    Assoc(U32(ReadU32(s).value), body[..ReadU32(s).value], body[ReadU32(s).value..]);
  }

  lemma PackageCanonical(c: Crypto, s: Bytes)
    requires ParsePackage(c, s).Ok?
    ensures DecodablePackage(c, ParsePackage(c, s).value)
    ensures s == EncodePackage(ParsePackage(c, s).value) + ParsePackage(c, s).rest
  {
    Read32Canonical(s);
    var s1 := Read32(s).rest;
    BlobCanonical(s1, MAX_CANONICAL_BLOB_BYTES);
    var s2 := ReadBlob(s1, MAX_CANONICAL_BLOB_BYTES).rest;
    U64Canonical(s2);
    var s3 := ReadU64(s2).rest;
    TermsCanonical(c, s3);
    var s4 := ParseTerms(c, s3).rest;
    OfficialStateCanonical(c, s4);
    U32Canonical(ParseOfficialState(c, s4).rest);
    var count := ReadU32(ParseOfficialState(c, s4).rest);
    EntriesCanonical(c, count.rest, count.value);
    U32Canonical(ParseEntries(c, count.rest, count.value).rest);
    var signatureCount := ReadU32(ParseEntries(c, count.rest, count.value).rest);
    SignaturesCanonical(c, signatureCount.rest, signatureCount.value);
    PackageTail(ParsePackage(c, s).value, ParsePackage(c, s).rest);
  }

  lemma ConfirmationCanonical(s0: Bytes)
    requires ParseConfirmation(s0).Ok?
    ensures s0 == EncodeConfirmation(ParseConfirmation(s0).value) + ParseConfirmation(s0).rest
    ensures ValidateConfirmation(ParseConfirmation(s0).value).Pass?
  {
    U16Canonical(s0);
    var s1 := ReadU16(s0).rest;
    Read32Canonical(s1);
    var s2 := Read32(s1).rest;
    Read32Canonical(s2);
    var s3 := Read32(s2).rest;
    Read32Canonical(s3);
    var s4 := Read32(s3).rest;
    U64Canonical(s4);
    var s5 := ReadU64(s4).rest;
    Read32Canonical(s5);
    var s6 := Read32(s5).rest;
    U64Canonical(s6);
    var s7 := ReadU64(s6).rest;
    Read32Canonical(s7);
    var s8 := Read32(s7).rest;
    Read32Canonical(s8);
    ConfirmationTail(ParseConfirmation(s0).value, ParseConfirmation(s0).rest);
  }

  lemma OptionU64Canonical(s: Bytes)
    requires ParseOptionU64(s).Ok?
    ensures s == EncodeOptionU64(ParseOptionU64(s).value) + ParseOptionU64(s).rest
  {
    var p := ParseOptionU64(s);
    if p.value.Some? {
      U64Canonical(s[1..]);
      Assoc([1], U64(p.value.value), p.rest);
    }
  }

  lemma Option32Canonical(s: Bytes)
    requires ParseOption32(s).Ok?
    ensures s == EncodeOption32(ParseOption32(s).value) + ParseOption32(s).rest
  {
    var p := ParseOption32(s);
    if p.value.Some? {
      Read32Canonical(s[1..]);
      Assoc([1], p.value.value, p.rest);
    }
  }

  lemma StatusCanonical(s: Bytes)
    requires ParseStatus(s).Ok?
    ensures s == U16(StatusCode(ParseStatus(s).value)) + ParseStatus(s).rest
  {
    U16Canonical(s);
  }

  lemma DecisionCanonical(s6: Bytes, id: Identity)
    requires ParseDecision(s6, id).Ok?
    ensures s6 == DecisionThen(ParseDecision(s6, id).value, ParseDecision(s6, id).rest)
    ensures IdentityOf(ParseDecision(s6, id).value) == id
    ensures ValidateResult(ParseDecision(s6, id).value).Pass?
  {
    StatusCanonical(s6);
    var s7 := ParseStatus(s6).rest;
    OptionU64Canonical(s7);
    var s8 := ParseOptionU64(s7).rest;
    Option32Canonical(s8);
    var s9 := ParseOption32(s8).rest;
    U64Canonical(s9);
    var s10 := ReadU64(s9).rest;
    U64Canonical(s10);
    var s11 := ReadU64(s10).rest;
    U64Canonical(s11);
    ReadBoolCanonical(ReadU64(s11).rest);
  }

  lemma IdentityCanonical(s0: Bytes)
    requires ParseIdentity(s0).Ok?
    ensures s0 == IdentityThen(ParseIdentity(s0).value, ParseIdentity(s0).rest)
  {
    PrimitivesCanonical();
  }

  lemma ResultCanonical(s0: Bytes)
    requires ParseResult(s0).Ok?
    ensures s0 == EncodeResult(ParseResult(s0).value) + ParseResult(s0).rest
    ensures ValidateResult(ParseResult(s0).value).Pass?
  {
    IdentityCanonical(s0);
    DecisionCanonical(ParseIdentity(s0).rest, ParseIdentity(s0).value);
    ResultTail(ParseResult(s0).value, ParseResult(s0).rest);
  }

  lemma SignedResultCanonical(c: Crypto, s: Bytes)
    requires ParseSignedResult(c, s).Ok?
    ensures s == EncodeSignedResult(ParseSignedResult(c, s).value) + ParseSignedResult(c, s).rest
  {
    ResultCanonical(s);
    PrimitivesCanonical();
    var p := ParseSignedResult(c, s);
    Assoc(EncodeResult(p.value.result), p.value.hubResultSignature, p.rest);
  }

  lemma DoubleSignCanonical(c: Crypto, s: Bytes)
    requires ParseDoubleSign(c, s).Ok?
    ensures s == EncodeDoubleSign(ParseDoubleSign(c, s).value) + ParseDoubleSign(c, s).rest
  {
    OfficialStateCanonical(c, s);
    OfficialStateCanonical(c, ParseOfficialState(c, s).rest);
    var p := ParseDoubleSign(c, s);
    Assoc(EncodeOfficialState(p.value.first), EncodeOfficialState(p.value.second), p.rest);
  }

  lemma ConflictCanonical(c: Crypto, s: Bytes)
    requires ParseConflict(c, s).Ok?
    ensures s == EncodeConflict(ParseConflict(c, s).value) + ParseConflict(c, s).rest
  {
    SignedResultCanonical(c, s);
    SignedResultCanonical(c, ParseSignedResult(c, s).rest);
    var p := ParseConflict(c, s);
    Assoc(EncodeSignedResult(p.value.first), EncodeSignedResult(p.value.second), p.rest);
  }
}
