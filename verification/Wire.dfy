/** The program's own decoders and encoders: one advances an offset, the other extends a buffer. */
module Wire {
  import opened ByteStrings
  import opened Protocol
  import opened Encoding
  import opened Types
  import opened Codec
  import opened Merkle

  // ---------------------------------------------------------------- decoding

  method DecodeEntry(c: Crypto, d: Decoder) returns (r: Result<LedgerEntry, ProtocolError>)
    requires d.Valid()
    modifies d
    ensures d.Valid() && Decoded(r, ParseEntry(c, old(d.Rest())), d.Rest())
  {
    var merchant :- d.Take32();
    var key :- d.Take48();
    var amount :- d.U64();
    var nonce :- d.Take32();
    var entry := LedgerEntry(merchant, key, amount, nonce);
    :- ValidateEntry(c, entry);
    return Success(entry);
  }

  method DecodeTerms(c: Crypto, d: Decoder) returns (r: Result<ChannelTerms, ProtocolError>)
    requires d.Valid()
    modifies d
    ensures d.Valid() && Decoded(r, ParseTerms(c, old(d.Rest())), d.Rest())
  {
    var version :- d.U16();
    if version != PROTOCOL_VERSION {
      return Failure(IntegerRange("protocol_version"));
    }
    var networkId :- d.Take32();
    var acceptance :- d.U64();
    var freeze :- d.U64();
    var close :- d.U64();
    var challenge :- d.U64();
    var user :- d.Take48();
    var hub :- d.Take48();
    var rules :- d.Take32();
    var amount :- d.U64();
    var remainder :- d.Take32();
    var max :- d.U64();
    var terms := ChannelTerms(networkId, acceptance, freeze, close, challenge, user, hub, rules, amount, remainder,
                              max);
    :- ValidateTerms(c, terms);
    return Success(terms);
  }

  method DecodeCheckpoint(d: Decoder) returns (r: Result<LedgerCheckpoint, ProtocolError>)
    requires d.Valid()
    modifies d
    ensures d.Valid() && Decoded(r, ParseCheckpoint(old(d.Rest())), d.Rest())
  {
    var coin :- d.Take32();
    var termsHash :- d.Take32();
    var sequence :- d.U64();
    var previous :- d.Take32();
    var root :- d.Take32();
    var count :- d.U64();
    var reserved :- d.U64();
    var remainder :- d.U64();
    return Success(LedgerCheckpoint(coin, termsHash, sequence, previous, root, count, reserved, remainder));
  }

  method DecodeOfficialState(c: Crypto, d: Decoder) returns (r: Result<OfficialState, ProtocolError>)
    requires d.Valid()
    modifies d
    ensures d.Valid() && Decoded(r, ParseOfficialState(c, old(d.Rest())), d.Rest())
  {
    var checkpoint :- DecodeCheckpoint(d);
    var signature :- d.Take96();
    :- ParseSignature(c, signature);
    return Success(OfficialState(checkpoint, signature));
  }

  /** What a list parser yields once some items are read: the items so far, then the rest's. */
  function Prefixed<T>(items: seq<T>, p: Parsed<seq<T>>): Parsed<seq<T>> {
    match p case Ok(more, rest) => Ok(items + more, rest) case Bad(error) => Bad(error)
  }

  lemma PrefixedOne<T>(items: seq<T>, item: T, p: Parsed<seq<T>>)
    ensures Prefixed(items + [item], p) == Prefixed(items, Prefixed([item], p))
  {
    assert p.Ok? ==> (items + [item]) + p.value == items + ([item] + p.value);
  }

  lemma PrefixedNone<T>(p: Parsed<seq<T>>)
    ensures Prefixed([], p) == p
  {
    assert p.Ok? ==> [] + p.value == p.value;
  }

  lemma EntriesStep(c: Crypto, s: Bytes, count: nat, p: Parsed<LedgerEntry>)
    requires count > 0 && ParseEntry(c, s) == p
    ensures ParseEntries(c, s, count) ==
            match p
            case Ok(entry, rest) => Prefixed([entry], ParseEntries(c, rest, count - 1))
            case Bad(error) => Bad(error)
  {
  }

  /** `entries` have been read, and reading `left` more from `s` gives the whole result. */
  ghost predicate EntriesSoFar(c: Crypto, s: Bytes, left: nat, entries: seq<LedgerEntry>,
                               whole: Parsed<seq<LedgerEntry>>)
  {
    whole == Prefixed(entries, ParseEntries(c, s, left))
  }

  /** One round of the loop: an entry more, or the error the whole list ends with. */
  method DecodeNextEntry(c: Crypto, d: Decoder, entries: seq<LedgerEntry>, left: nat,
                         ghost whole: Parsed<seq<LedgerEntry>>)
    returns (r: Result<seq<LedgerEntry>, ProtocolError>)
    requires d.Valid() && left > 0 && EntriesSoFar(c, d.Rest(), left, entries, whole)
    modifies d
    ensures d.Valid()
    ensures r.Success? ==> EntriesSoFar(c, d.Rest(), left - 1, r.value, whole)
    ensures r.Failure? ==> whole == Bad(r.error)
  {
    EntriesStep(c, d.Rest(), left, ParseEntry(c, d.Rest()));
    var entry :- DecodeEntry(c, d);
    PrefixedOne(entries, entry, ParseEntries(c, d.Rest(), left - 1));
    return Success(entries + [entry]);
  }

  lemma EntriesDone(c: Crypto, s: Bytes, entries: seq<LedgerEntry>, whole: Parsed<seq<LedgerEntry>>)
    requires EntriesSoFar(c, s, 0, entries, whole)
    ensures whole == Ok(entries, s)
  {
    assert entries + [] == entries;
  }

  method DecodeEntries(c: Crypto, d: Decoder, count: nat) returns (r: Result<seq<LedgerEntry>, ProtocolError>)
    requires d.Valid()
    modifies d
    ensures d.Valid() && Decoded(r, ParseEntries(c, old(d.Rest()), count), d.Rest())
  {
    PrefixedNone(ParseEntries(c, d.Rest(), count));
    r := DecodeEveryEntry(c, d, count, ParseEntries(c, d.Rest(), count));
  }

  /** The counted loop, against the result of the whole list. */
  method DecodeEveryEntry(c: Crypto, d: Decoder, count: nat, ghost whole: Parsed<seq<LedgerEntry>>)
    returns (r: Result<seq<LedgerEntry>, ProtocolError>)
    requires d.Valid() && EntriesSoFar(c, d.Rest(), count, [], whole)
    modifies d
    ensures d.Valid() && Decoded(r, whole, d.Rest())
  {
    var entries: seq<LedgerEntry> := [];
    var left := count;
    while left > 0
      invariant d.Valid() && 0 <= left <= count
      invariant EntriesSoFar(c, d.Rest(), left, entries, whole)
    {
      entries :- DecodeNextEntry(c, d, entries, left, whole);
      left := left - 1;
    }
    EntriesDone(c, d.Rest(), entries, whole);
    return Success(entries);
  }

  method DecodeSignatures(c: Crypto, d: Decoder, count: nat) returns (r: Result<seq<Bytes96>, ProtocolError>)
    requires d.Valid()
    modifies d
    ensures d.Valid() && Decoded(r, ParseSignatures(c, old(d.Rest()), count), d.Rest())
  {
    var signatures: seq<Bytes96> := [];
    var left := count;
    ghost var whole := ParseSignatures(c, d.Rest(), count);
    PrefixedNone(whole);
    while left > 0
      invariant d.Valid() && 0 <= left <= count
      invariant whole == Prefixed(signatures, ParseSignatures(c, d.Rest(), left))
    {
      var signature :- d.Take96();
      :- ParseSignature(c, signature);
      PrefixedOne(signatures, signature, ParseSignatures(c, d.Rest(), left - 1));
      signatures := signatures + [signature];
      left := left - 1;
    }
    assert signatures + [] == signatures;
    return Success(signatures);
  }

  method DecodePackage(c: Crypto, d: Decoder) returns (r: Result<RecoveryPackage, ProtocolError>)
    requires d.Valid()
    modifies d
    ensures d.Valid() && Decoded(r, ParsePackage(c, old(d.Rest())), d.Rest())
  {
    var coin :- d.Take32();
    var puzzle :- d.Blob(MAX_CANONICAL_BLOB_BYTES);
    var amount :- d.U64();
    var terms :- DecodeTerms(c, d);
    var state :- DecodeOfficialState(c, d);
    var entryCount :- d.U32();
    if entryCount > MAX_LEDGER_ENTRIES {
      return Failure(LedgerFull);
    }
    var entries :- DecodeEntries(c, d, entryCount);
    var signatureCount :- d.U32();
    if signatureCount > MAX_LEDGER_ENTRIES {
      return Failure(LedgerFull);
    }
    var signatures :- DecodeSignatures(c, d, signatureCount);
    return Success(RecoveryPackage(coin, puzzle, amount, terms, state, entries, signatures));
  }

  method DecodeConfirmation(d: Decoder) returns (r: Result<DeliveryConfirmation, ProtocolError>)
    requires d.Valid()
    modifies d
    ensures d.Valid() && Decoded(r, ParseConfirmation(old(d.Rest())), d.Rest())
  {
    var version :- d.U16();
    if version != PROTOCOL_VERSION {
      return Failure(IntegerRange("protocol_version"));
    }
    var networkId :- d.Take32();
    var coin :- d.Take32();
    var termsHash :- d.Take32();
    var sequence :- d.U64();
    var checkpointHash :- d.Take32();
    var index :- d.U64();
    var authorization :- d.Take32();
    var content :- d.Take32();
    var confirmation :=
        DeliveryConfirmation(networkId, coin, termsHash, sequence, checkpointHash, index, authorization, content);
    :- ValidateConfirmation(confirmation);
    return Success(confirmation);
  }

  method DecodeIdentity(d: Decoder) returns (r: Result<Identity, ProtocolError>)
    requires d.Valid()
    modifies d
    ensures d.Valid() && Decoded(r, ParseIdentity(old(d.Rest())), d.Rest())
  {
    var version :- d.U16();
    if version != PROTOCOL_VERSION {
      return Failure(IntegerRange("protocol_version"));
    }
    var networkId :- d.Take32();
    var requestId :- d.Take32();
    var coin :- d.Take32();
    var nonce :- d.Take32();
    var authorization :- d.Take32();
    return Success(Identity(networkId, requestId, coin, nonce, authorization));
  }

  method DecodeOptionU64(d: Decoder) returns (r: Result<Option<u64>, ProtocolError>)
    requires d.Valid()
    modifies d
    ensures d.Valid() && Decoded(r, ParseOptionU64(old(d.Rest())), d.Rest())
  {
    var tag :- d.U8();
    if tag == 0 {
      return Success(None);
    } else if tag != 1 {
      return Failure(InvalidOption(tag));
    }
    var value :- d.U64();
    return Success(Some(value));
  }

  method DecodeOption32(d: Decoder) returns (r: Result<Option<Bytes32>, ProtocolError>)
    requires d.Valid()
    modifies d
    ensures d.Valid() && Decoded(r, ParseOption32(old(d.Rest())), d.Rest())
  {
    var tag :- d.U8();
    if tag == 0 {
      return Success(None);
    } else if tag != 1 {
      return Failure(InvalidOption(tag));
    }
    var value :- d.Take32();
    return Success(Some(value));
  }

  method DecodeResult(d: Decoder) returns (r: Result<ReservationResult, ProtocolError>)
    requires d.Valid()
    modifies d
    ensures d.Valid() && Decoded(r, ParseResult(old(d.Rest())), d.Rest())
  {
    var id :- DecodeIdentity(d);
    var code :- d.U16();
    var status :- StatusFromCode(code);
    var sequence :- DecodeOptionU64(d);
    var checkpointHash :- DecodeOption32(d);
    var observed :- d.U64();
    var cutoff :- d.U64();
    var close :- d.U64();
    var written :- d.Bool();
    var result := ReservationResult(id.networkId, id.requestId, id.coin, id.nonce, id.authorization, status, sequence,
                                    checkpointHash, observed, cutoff, close, written);
    :- ValidateResult(result);
    return Success(result);
  }

  method DecodeSignedResult(c: Crypto, d: Decoder) returns (r: Result<SignedReservationResult, ProtocolError>)
    requires d.Valid()
    modifies d
    ensures d.Valid() && Decoded(r, ParseSignedResult(c, old(d.Rest())), d.Rest())
  {
    var result :- DecodeResult(d);
    var signature :- d.Take96();
    :- ParseSignature(c, signature);
    return Success(SignedReservationResult(result, signature));
  }

  method DecodeDoubleSign(c: Crypto, d: Decoder) returns (r: Result<DoubleSignEvidence, ProtocolError>)
    requires d.Valid()
    modifies d
    ensures d.Valid() && Decoded(r, ParseDoubleSign(c, old(d.Rest())), d.Rest())
  {
    var first :- DecodeOfficialState(c, d);
    var second :- DecodeOfficialState(c, d);
    return Success(DoubleSignEvidence(first, second));
  }

  method DecodeConflict(c: Crypto, d: Decoder) returns (r: Result<ConflictingResultEvidence, ProtocolError>)
    requires d.Valid()
    modifies d
    ensures d.Valid() && Decoded(r, ParseConflict(c, old(d.Rest())), d.Rest())
  {
    var first :- DecodeSignedResult(c, d);
    var second :- DecodeSignedResult(c, d);
    return Success(ConflictingResultEvidence(first, second));
  }

  method DecodeProof(d: Decoder) returns (r: Result<MerkleProof, ProtocolError>)
    requires d.Valid()
    modifies d
    ensures d.Valid() && Decoded(r, ParseProof(old(d.Rest())), d.Rest())
  {
    var index :- d.U32();
    var leafCount :- d.U32();
    var count :- d.U32();
    if count > 64 {
      return Failure(LengthLimit(count, 64));
    }
    var steps :- DecodeSteps(d, count);
    return Success(MerkleProof(index, leafCount, steps));
  }

  method DecodeSteps(d: Decoder, count: nat) returns (r: Result<seq<MerkleStep>, ProtocolError>)
    requires d.Valid()
    modifies d
    ensures d.Valid() && Decoded(r, ParseSteps(old(d.Rest()), count), d.Rest())
  {
    var steps: seq<MerkleStep> := [];
    var left := count;
    ghost var whole := ParseSteps(d.Rest(), count);
    PrefixedNone(whole);
    while left > 0
      invariant d.Valid() && 0 <= left <= count
      invariant whole == Prefixed(steps, ParseSteps(d.Rest(), left))
    {
      var tag :- d.U8();
      if tag > 1 {
        return Failure(InvalidBool(tag));
      }
      var sibling :- d.Take32();
      var step: MerkleStep := Step(if tag == 0 then Right else Left, sibling);
      PrefixedOne(steps, step, ParseSteps(d.Rest(), left - 1));
      steps := steps + [step];
      left := left - 1;
    }
    assert steps + [] == steps;
    return Success(steps);
  }

  /** `from_canonical_bytes`, for the type with the most structure: decode, then insist the input is exhausted. */
  method PackageFromCanonicalBytes(c: Crypto, input: Bytes) returns (r: Result<RecoveryPackage, ProtocolError>)
    ensures r == Encoding.Finish(ParsePackage(c, input))
    ensures r.Success? ==> DecodablePackage(c, r.value) && input == EncodePackage(r.value)
  {
    var d := new Decoder(input);
    var package :- DecodePackage(c, d);
    :- d.Finish();
    PackageCanonical(c, input);
    assert EncodePackage(package) + [] == EncodePackage(package);
    return Success(package);
  }

  // ---------------------------------------------------------------- encoding

  /** Three fields appended to a buffer, then what follows them. */
  lemma Nest(o: Bytes, a: Bytes, b: Bytes, d: Bytes, rest: Bytes)
    ensures (((o + a) + b) + d) + rest == o + (a + (b + (d + rest)))
  {
    Assoc(o + a + b, d, rest);
    Assoc(o + a, b, d + rest);
    Assoc(o, a, b + (d + rest));
  }

  method EncodeEntryTo(e: LedgerEntry, out: Output)
    modifies out
    ensures out.bytes == old(out.bytes) + EncodeEntry(e)
  {
    out.Extend(e.merchantPuzzleHash);
    out.Extend(e.merchantReceiptPublicKey);
    out.Extend(U64(e.amount));
    out.Extend(e.reservationNonce);
    Nest(old(out.bytes), e.merchantPuzzleHash, e.merchantReceiptPublicKey, U64(e.amount), e.reservationNonce);
  }

  method EncodeTermsTo(t: ChannelTerms, out: Output)
    modifies out
    ensures out.bytes == old(out.bytes) + EncodeTerms(t)
  {
    out.Extend(U16(PROTOCOL_VERSION));
    out.Extend(t.networkId);
    out.Extend(U64(t.acceptanceBlocks));
    ghost var b1 := out.bytes;
    out.Extend(U64(t.freezeBlocks));
    out.Extend(U64(t.closeDelayBlocks));
    out.Extend(U64(t.challengeBlocks));
    ghost var b2 := out.bytes;
    out.Extend(t.userPublicKey);
    out.Extend(t.hubStatePublicKeyA);
    out.Extend(t.stateRulesHash);
    ghost var b3 := out.bytes;
    out.Extend(U64(t.fundingAmount));
    out.Extend(t.userRemainderPuzzleHash);
    out.Extend(U64(t.maxLedgerEntries));
    ghost var n3 := U64(t.fundingAmount) + (t.userRemainderPuzzleHash + U64(t.maxLedgerEntries));
    Assoc(b3 + U64(t.fundingAmount), t.userRemainderPuzzleHash, U64(t.maxLedgerEntries));
    Assoc(b3, U64(t.fundingAmount), t.userRemainderPuzzleHash + U64(t.maxLedgerEntries));
    ghost var n2 := t.userPublicKey + (t.hubStatePublicKeyA + (t.stateRulesHash + n3));
    Nest(b2, t.userPublicKey, t.hubStatePublicKeyA, t.stateRulesHash, n3);
    ghost var n1 := U64(t.freezeBlocks) + (U64(t.closeDelayBlocks) + (U64(t.challengeBlocks) + n2));
    Nest(b1, U64(t.freezeBlocks), U64(t.closeDelayBlocks), U64(t.challengeBlocks), n2);
    Nest(old(out.bytes), U16(PROTOCOL_VERSION), t.networkId, U64(t.acceptanceBlocks), n1);
  }

  method EncodeCheckpointTo(k: LedgerCheckpoint, out: Output)
    modifies out
    ensures out.bytes == old(out.bytes) + EncodeCheckpoint(k)
  {
    out.Extend(k.fundingCoinId);
    out.Extend(k.channelTermsHash);
    out.Extend(U64(k.stateSequence));
    ghost var b1 := out.bytes;
    out.Extend(k.previousCheckpointHash);
    ghost var b2 := out.bytes;
    out.Extend(k.manifestRoot);
    out.Extend(U64(k.entryCount));
    out.Extend(U64(k.reservedTotal));
    out.Extend(U64(k.userRemainder));
    ghost var n2 := k.manifestRoot + (U64(k.entryCount) + (U64(k.reservedTotal) + U64(k.userRemainder)));
    Nest(b2, k.manifestRoot, U64(k.entryCount), U64(k.reservedTotal), U64(k.userRemainder));
    Assoc(b1, k.previousCheckpointHash, n2);
    Nest(old(out.bytes), k.fundingCoinId, k.channelTermsHash, U64(k.stateSequence), k.previousCheckpointHash + n2);
  }

  method EncodeOfficialStateTo(s: OfficialState, out: Output)
    modifies out
    ensures out.bytes == old(out.bytes) + EncodeOfficialState(s)
  {
    EncodeCheckpointTo(s.checkpoint, out);
    out.Extend(s.hubStateSignature);
    Assoc(old(out.bytes), EncodeCheckpoint(s.checkpoint), s.hubStateSignature);
  }

  method EncodeEntriesTo(entries: seq<LedgerEntry>, out: Output)
    modifies out
    ensures out.bytes == old(out.bytes) + EncodeEntries(entries)
  {
    var i := 0;
    assert entries[0..] == entries;
    while i < |entries|
      invariant 0 <= i <= |entries|
      invariant out.bytes + EncodeEntries(entries[i..]) == old(out.bytes) + EncodeEntries(entries)
    {
      ghost var before := out.bytes;
      EncodeEntryTo(entries[i], out);
      assert entries[i..][1..] == entries[i + 1..];
      Assoc(before, EncodeEntry(entries[i]), EncodeEntries(entries[i + 1..]));
      i := i + 1;
    }
    assert out.bytes + [] == out.bytes;
  }

  method EncodeSignaturesTo(signatures: seq<Bytes96>, out: Output)
    modifies out
    ensures out.bytes == old(out.bytes) + EncodeSignatures(signatures)
  {
    var i := 0;
    assert signatures[0..] == signatures;
    while i < |signatures|
      invariant 0 <= i <= |signatures|
      invariant out.bytes + EncodeSignatures(signatures[i..]) == old(out.bytes) + EncodeSignatures(signatures)
    {
      ghost var before := out.bytes;
      out.Extend(signatures[i]);
      assert signatures[i..][1..] == signatures[i + 1..];
      Assoc(before, signatures[i], EncodeSignatures(signatures[i + 1..]));
      i := i + 1;
    }
    assert out.bytes + [] == out.bytes;
  }

  method EncodePackageTo(p: RecoveryPackage, out: Output)
    requires Encodable(p)
    modifies out
    ensures out.bytes == old(out.bytes) + EncodePackage(p)
  {
    out.Extend(p.fundingCoinId);
    out.Extend(PutBlob(p.fundingPuzzleReveal));
    out.Extend(U64(p.fundingAmount));
    ghost var b1 := out.bytes;
    EncodeTermsTo(p.channelTerms, out);
    EncodeOfficialStateTo(p.officialState, out);
    ghost var b2 := out.bytes;
    out.Extend(U32(|p.entries|));
    EncodeEntriesTo(p.entries, out);
    out.Extend(U32(|p.userAuthorizationSignatures|));
    EncodeSignaturesTo(p.userAuthorizationSignatures, out);
    ghost var n2 := U32(|p.entries|) + (EncodeEntries(p.entries) + (U32(|p.userAuthorizationSignatures|) +
                    EncodeSignatures(p.userAuthorizationSignatures)));
    Nest(b2, U32(|p.entries|), EncodeEntries(p.entries), U32(|p.userAuthorizationSignatures|),
         EncodeSignatures(p.userAuthorizationSignatures));
    Assoc(b1 + EncodeTerms(p.channelTerms), EncodeOfficialState(p.officialState), n2);
    Assoc(b1, EncodeTerms(p.channelTerms), EncodeOfficialState(p.officialState) + n2);
    Nest(old(out.bytes), p.fundingCoinId, PutBlob(p.fundingPuzzleReveal), U64(p.fundingAmount),
         EncodeTerms(p.channelTerms) + (EncodeOfficialState(p.officialState) + n2));
  }

  method EncodeConfirmationTo(k: DeliveryConfirmation, out: Output)
    modifies out
    ensures out.bytes == old(out.bytes) + EncodeConfirmation(k)
  {
    out.Extend(U16(PROTOCOL_VERSION));
    out.Extend(k.networkId);
    out.Extend(k.fundingCoinId);
    ghost var b1 := out.bytes;
    out.Extend(k.channelTermsHash);
    out.Extend(U64(k.stateSequence));
    ghost var b2 := out.bytes;
    out.Extend(k.checkpointHash);
    out.Extend(U64(k.entryIndex));
    out.Extend(k.authorizationHash);
    out.Extend(k.recoveryPackageContentHash);
    ghost var n2 := k.checkpointHash + (U64(k.entryIndex) + (k.authorizationHash + k.recoveryPackageContentHash));
    Nest(b2, k.checkpointHash, U64(k.entryIndex), k.authorizationHash, k.recoveryPackageContentHash);
    Assoc(b1 + k.channelTermsHash, U64(k.stateSequence), n2);
    Assoc(b1, k.channelTermsHash, U64(k.stateSequence) + n2);
    Nest(old(out.bytes), U16(PROTOCOL_VERSION), k.networkId, k.fundingCoinId,
         k.channelTermsHash + (U64(k.stateSequence) + n2));
  }

  method EncodeResultTo(r: ReservationResult, out: Output)
    modifies out
    ensures out.bytes == old(out.bytes) + EncodeResult(r)
  {
    out.Extend(U16(PROTOCOL_VERSION));
    out.Extend(r.networkId);
    out.Extend(r.requestId);
    ghost var b1 := out.bytes;
    out.Extend(r.fundingCoinId);
    out.Extend(r.reservationNonce);
    out.Extend(r.authorizationHash);
    ghost var b2 := out.bytes;
    out.Extend(U16(StatusCode(r.status)));
    out.Extend(EncodeOptionU64(r.stateSequence));
    out.Extend(EncodeOption32(r.checkpointHash));
    ghost var b3 := out.bytes;
    out.Extend(U64(r.observedPeakHeight));
    out.Extend(U64(r.acceptanceCutoffHeight));
    out.Extend(U64(r.scheduledCloseHeight));
    out.Extend(PutBool(r.ledgerWritten));
    ghost var n3 := U64(r.observedPeakHeight)
        + (U64(r.acceptanceCutoffHeight) + (U64(r.scheduledCloseHeight) + PutBool(r.ledgerWritten)));
    Nest(b3, U64(r.observedPeakHeight), U64(r.acceptanceCutoffHeight), U64(r.scheduledCloseHeight),
         PutBool(r.ledgerWritten));
    ghost var n2 := U16(StatusCode(r.status))
        + (EncodeOptionU64(r.stateSequence) + (EncodeOption32(r.checkpointHash) + n3));
    Nest(b2, U16(StatusCode(r.status)), EncodeOptionU64(r.stateSequence), EncodeOption32(r.checkpointHash), n3);
    ghost var n1 := r.fundingCoinId + (r.reservationNonce + (r.authorizationHash + n2));
    Nest(b1, r.fundingCoinId, r.reservationNonce, r.authorizationHash, n2);
    Nest(old(out.bytes), U16(PROTOCOL_VERSION), r.networkId, r.requestId, n1);
  }

  method EncodeSignedResultTo(s: SignedReservationResult, out: Output)
    modifies out
    ensures out.bytes == old(out.bytes) + EncodeSignedResult(s)
  {
    EncodeResultTo(s.result, out);
    out.Extend(s.hubResultSignature);
    Assoc(old(out.bytes), EncodeResult(s.result), s.hubResultSignature);
  }

  method EncodeDoubleSignTo(e: DoubleSignEvidence, out: Output)
    modifies out
    ensures out.bytes == old(out.bytes) + EncodeDoubleSign(e)
  {
    EncodeOfficialStateTo(e.first, out);
    EncodeOfficialStateTo(e.second, out);
    Assoc(old(out.bytes), EncodeOfficialState(e.first), EncodeOfficialState(e.second));
  }

  method EncodeConflictTo(e: ConflictingResultEvidence, out: Output)
    modifies out
    ensures out.bytes == old(out.bytes) + EncodeConflict(e)
  {
    EncodeSignedResultTo(e.first, out);
    EncodeSignedResultTo(e.second, out);
    Assoc(old(out.bytes), EncodeSignedResult(e.first), EncodeSignedResult(e.second));
  }

  method EncodeProofTo(p: MerkleProof, out: Output)
    requires |p.steps| < 0x1_0000_0000
    modifies out
    ensures out.bytes == old(out.bytes) + EncodeProof(p)
  {
    out.Extend(U32(p.leafIndex));
    out.Extend(U32(p.leafCount));
    out.Extend(U32(|p.steps|));
    EncodeStepsTo(p.steps, out);
    Nest(old(out.bytes), U32(p.leafIndex), U32(p.leafCount), U32(|p.steps|), EncodeSteps(p.steps));
  }

  method EncodeStepsTo(steps: seq<MerkleStep>, out: Output)
    modifies out
    ensures out.bytes == old(out.bytes) + EncodeSteps(steps)
  {
    var i := 0;
    assert steps[0..] == steps;
    while i < |steps|
      invariant 0 <= i <= |steps|
      invariant out.bytes + EncodeSteps(steps[i..]) == old(out.bytes) + EncodeSteps(steps)
    {
      ghost var before := out.bytes;
      out.Extend([SideByte(steps[i].side)]);
      out.Extend(steps[i].sibling);
      assert steps[i..][1..] == steps[i + 1..];
      Assoc(before, [SideByte(steps[i].side)], steps[i].sibling);
      Assoc(before, [SideByte(steps[i].side)] + steps[i].sibling, EncodeSteps(steps[i + 1..]));
      i := i + 1;
    }
    assert out.bytes + [] == out.bytes;
  }

  /** `canonical_bytes`, and back: what the encoder writes, the decoder reads whole. */
  method PackageCanonicalBytes(c: Crypto, p: RecoveryPackage) returns (bytes: Bytes)
    requires Encodable(p)
    ensures bytes == EncodePackage(p)
    ensures DecodablePackage(c, p) ==> Encoding.Finish(ParsePackage(c, bytes)) == Success(p)
  {
    var out := new Output();
    EncodePackageTo(p, out);
    assert [] + EncodePackage(p) == EncodePackage(p) && EncodePackage(p) + [] == EncodePackage(p);
    if DecodablePackage(c, p) {
      PackageRoundTrip(c, p, []);
    }
    return out.bytes;
  }
}
