/** Where each field lies in the canonical bytes, and with what value: the encodings said by offsets instead of by
    their encoders. */
module Layout {
  import opened ByteStrings
  import opened Protocol
  import opened Encoding
  import opened Types
  import opened Merkle

  // ---------------------------------------------------------------- fields at offsets

  predicate At(b: Bytes, offset: nat, field: Bytes) {
    offset + |field| <= |b| && b[offset..offset + |field|] == field
  }

  /** A big-endian number of this width. */
  predicate NumberAt(b: Bytes, offset: nat, width: nat, value: nat) {
    offset + width <= |b| && FromBE(b[offset..offset + width]) == value
  }

  /** The bytes from an offset on. */
  predicate RestAt(b: Bytes, offset: nat, rest: Bytes) {
    offset <= |b| && b[offset..] == rest
  }

  lemma Peel(b: Bytes, offset: nat, field: Bytes, rest: Bytes)
    requires RestAt(b, offset, field + rest)
    ensures At(b, offset, field) && RestAt(b, offset + |field|, rest)
  {
    assert b[offset..offset + |field|] == (field + rest)[..|field|];
    assert b[offset + |field|..] == (field + rest)[|field|..];
  }

  lemma PeelU64(b: Bytes, offset: nat, value: u64, rest: Bytes)
    requires RestAt(b, offset, U64(value) + rest)
    ensures NumberAt(b, offset, 8, value) && RestAt(b, offset + 8, rest)
  {
    Peel(b, offset, U64(value), rest);
    Widths();
    FromToBE(value, 8);
  }

  lemma PeelU16(b: Bytes, offset: nat, value: u16, rest: Bytes)
    requires RestAt(b, offset, U16(value) + rest)
    ensures NumberAt(b, offset, 2, value) && RestAt(b, offset + 2, rest)
  {
    Peel(b, offset, U16(value), rest);
    Widths();
    FromToBE(value, 2);
  }

  lemma PeelU32(b: Bytes, offset: nat, value: u32, rest: Bytes)
    requires RestAt(b, offset, U32(value) + rest)
    ensures NumberAt(b, offset, 4, value) && RestAt(b, offset + 4, rest)
  {
    Peel(b, offset, U32(value), rest);
    Widths();
    FromToBE(value, 4);
  }

  lemma Whole(b: Bytes)
    ensures RestAt(b, 0, b)
  {
  }

  lemma Ends(field: Bytes)
    ensures field + [] == field
  {
  }

  // ---------------------------------------------------------------- terms, entries, checkpoints

  predicate TermsAt(b: Bytes, t: ChannelTerms) {
    && |b| == 242 && NumberAt(b, 0, 2, 0x0360)
    && At(b, 2, t.networkId)
    && NumberAt(b, 34, 8, t.acceptanceBlocks) && NumberAt(b, 42, 8, t.freezeBlocks)
    && NumberAt(b, 50, 8, t.closeDelayBlocks) && NumberAt(b, 58, 8, t.challengeBlocks)
    && At(b, 66, t.userPublicKey) && At(b, 114, t.hubStatePublicKeyA) && At(b, 162, t.stateRulesHash)
    && NumberAt(b, 194, 8, t.fundingAmount) && At(b, 202, t.userRemainderPuzzleHash)
    && NumberAt(b, 234, 8, t.maxLedgerEntries)
  }

  /** What follows the six numbers of the terms' head. */
  function TermsRest(t: ChannelTerms): Bytes {
    t.userPublicKey + (t.hubStatePublicKeyA + (t.stateRulesHash + (U64(t.fundingAmount) + (t.userRemainderPuzzleHash +
    U64(t.maxLedgerEntries)))))
  }

  lemma TermsHead(t: ChannelTerms)
    ensures var b := EncodeTerms(t);
            && NumberAt(b, 0, 2, 0x0360) && At(b, 2, t.networkId)
            && NumberAt(b, 34, 8, t.acceptanceBlocks) && NumberAt(b, 42, 8, t.freezeBlocks)
            && NumberAt(b, 50, 8, t.closeDelayBlocks) && NumberAt(b, 58, 8, t.challengeBlocks)
            && RestAt(b, 66, TermsRest(t))
  {
    var b := EncodeTerms(t);
    var r5 := U64(t.challengeBlocks) + TermsRest(t);
    var r4 := U64(t.closeDelayBlocks) + r5;
    var r3 := U64(t.freezeBlocks) + r4;
    var r2 := U64(t.acceptanceBlocks) + r3;
    var r1 := t.networkId + r2;
    Whole(b);
    PeelU16(b, 0, PROTOCOL_VERSION, r1);
    Peel(b, 2, t.networkId, r2);
    PeelU64(b, 34, t.acceptanceBlocks, r3);
    PeelU64(b, 42, t.freezeBlocks, r4);
    PeelU64(b, 50, t.closeDelayBlocks, r5);
    PeelU64(b, 58, t.challengeBlocks, TermsRest(t));
  }

  lemma TermsTail(b: Bytes, t: ChannelTerms)
    requires RestAt(b, 66, TermsRest(t))
    ensures At(b, 66, t.userPublicKey) && At(b, 114, t.hubStatePublicKeyA) && At(b, 162, t.stateRulesHash)
    ensures NumberAt(b, 194, 8, t.fundingAmount) && At(b, 202, t.userRemainderPuzzleHash)
    ensures NumberAt(b, 234, 8, t.maxLedgerEntries) && |b| == 242
  {
    var r11 := U64(t.maxLedgerEntries);
    var r10 := t.userRemainderPuzzleHash + r11;
    var r9 := U64(t.fundingAmount) + r10;
    var r8 := t.stateRulesHash + r9;
    var r7 := t.hubStatePublicKeyA + r8;
    Peel(b, 66, t.userPublicKey, r7);
    Peel(b, 114, t.hubStatePublicKeyA, r8);
    Peel(b, 162, t.stateRulesHash, r9);
    PeelU64(b, 194, t.fundingAmount, r10);
    Peel(b, 202, t.userRemainderPuzzleHash, r11);
    Ends(r11);
    PeelU64(b, 234, t.maxLedgerEntries, []);
  }

  lemma TermsLayout(t: ChannelTerms)
    ensures TermsAt(EncodeTerms(t), t)
  {
    TermsHead(t);
    TermsTail(EncodeTerms(t), t);
  }

  predicate EntryAt(b: Bytes, e: LedgerEntry) {
    && |b| == 120
    && At(b, 0, e.merchantPuzzleHash) && At(b, 32, e.merchantReceiptPublicKey)
    && NumberAt(b, 80, 8, e.amount) && At(b, 88, e.reservationNonce)
  }

  lemma EntryLayout(e: LedgerEntry)
    ensures EntryAt(EncodeEntry(e), e)
  {
    var b := EncodeEntry(e);
    var r2 := U64(e.amount) + e.reservationNonce;
    var r1 := e.merchantReceiptPublicKey + r2;
    Whole(b);
    Peel(b, 0, e.merchantPuzzleHash, r1);
    Peel(b, 32, e.merchantReceiptPublicKey, r2);
    PeelU64(b, 80, e.amount, e.reservationNonce);
    Ends(e.reservationNonce);
    Peel(b, 88, e.reservationNonce, []);
  }

  predicate CheckpointAt(b: Bytes, k: LedgerCheckpoint) {
    && |b| == 160
    && At(b, 0, k.fundingCoinId) && At(b, 32, k.channelTermsHash)
    && NumberAt(b, 64, 8, k.stateSequence)
    && At(b, 72, k.previousCheckpointHash) && At(b, 104, k.manifestRoot)
    && NumberAt(b, 136, 8, k.entryCount) && NumberAt(b, 144, 8, k.reservedTotal) && NumberAt(b, 152, 8, k.userRemainder)
  }

  function CheckpointRest(k: LedgerCheckpoint): Bytes {
    k.manifestRoot + (U64(k.entryCount) + (U64(k.reservedTotal) + U64(k.userRemainder)))
  }

  lemma CheckpointHead(k: LedgerCheckpoint)
    ensures var b := EncodeCheckpoint(k);
            && At(b, 0, k.fundingCoinId) && At(b, 32, k.channelTermsHash) && NumberAt(b, 64, 8, k.stateSequence)
            && At(b, 72, k.previousCheckpointHash) && RestAt(b, 104, CheckpointRest(k))
  {
    var b := EncodeCheckpoint(k);
    var r3 := k.previousCheckpointHash + CheckpointRest(k);
    var r2 := U64(k.stateSequence) + r3;
    var r1 := k.channelTermsHash + r2;
    Whole(b);
    Peel(b, 0, k.fundingCoinId, r1);
    Peel(b, 32, k.channelTermsHash, r2);
    PeelU64(b, 64, k.stateSequence, r3);
    Peel(b, 72, k.previousCheckpointHash, CheckpointRest(k));
  }

  lemma CheckpointTail(b: Bytes, k: LedgerCheckpoint)
    requires RestAt(b, 104, CheckpointRest(k))
    ensures At(b, 104, k.manifestRoot) && NumberAt(b, 136, 8, k.entryCount) && NumberAt(b, 144, 8, k.reservedTotal)
    ensures NumberAt(b, 152, 8, k.userRemainder) && |b| == 160
  {
    var r7 := U64(k.userRemainder);
    var r6 := U64(k.reservedTotal) + r7;
    var r5 := U64(k.entryCount) + r6;
    Peel(b, 104, k.manifestRoot, r5);
    PeelU64(b, 136, k.entryCount, r6);
    PeelU64(b, 144, k.reservedTotal, r7);
    Ends(r7);
    PeelU64(b, 152, k.userRemainder, []);
  }

  lemma CheckpointLayout(k: LedgerCheckpoint)
    ensures CheckpointAt(EncodeCheckpoint(k), k)
  {
    CheckpointHead(k);
    CheckpointTail(EncodeCheckpoint(k), k);
  }

  predicate OfficialStateAt(b: Bytes, s: OfficialState) {
    |b| == 256 && CheckpointAt(b[..160], s.checkpoint) && At(b, 160, s.hubStateSignature)
  }

  lemma OfficialStateLayout(s: OfficialState)
    ensures OfficialStateAt(EncodeOfficialState(s), s)
  {
    CheckpointLayout(s.checkpoint);
    assert EncodeOfficialState(s)[..160] == EncodeCheckpoint(s.checkpoint);
  }

  // ---------------------------------------------------------------- packages

  lemma {:induction false} EntriesLayout(entries: seq<LedgerEntry>, i: nat)
    requires i < |entries|
    ensures |EncodeEntries(entries)| == 120 * |entries|
    ensures EntryAt(EncodeEntries(entries)[120 * i..120 * i + 120], entries[i])
  {
    var b, rest := EncodeEntries(entries), EncodeEntries(entries[1..]);
    EntryLayout(entries[0]);
    assert b[..120] == EncodeEntry(entries[0]) && b[120..] == rest;
    if |entries| > 1 {
      EntriesLayout(entries[1..], if i > 0 then i - 1 else 0);
    }
    if i > 0 {
      assert b[120 * i..120 * i + 120] == rest[120 * (i - 1)..120 * (i - 1) + 120];
    }
  }

  lemma {:induction false} SignaturesLayout(signatures: seq<Bytes96>, i: nat)
    requires i < |signatures|
    ensures |EncodeSignatures(signatures)| == 96 * |signatures|
    ensures At(EncodeSignatures(signatures), 96 * i, signatures[i])
  {
    var b, rest := EncodeSignatures(signatures), EncodeSignatures(signatures[1..]);
    assert b[..96] == signatures[0] && b[96..] == rest;
    if |signatures| > 1 {
      SignaturesLayout(signatures[1..], if i > 0 then i - 1 else 0);
    }
    if i > 0 {
      assert b[96 * i..96 * i + 96] == rest[96 * (i - 1)..96 * (i - 1) + 96];
    }
  }

  lemma {:induction false} EntriesLength(entries: seq<LedgerEntry>)
    ensures |EncodeEntries(entries)| == 120 * |entries|
  {
    if entries != [] {
      EntriesLength(entries[1..]);
    }
  }

  lemma {:induction false} SignaturesLength(signatures: seq<Bytes96>)
    ensures |EncodeSignatures(signatures)| == 96 * |signatures|
  {
    if signatures != [] {
      SignaturesLength(signatures[1..]);
    }
  }

  lemma SliceOfSlice(b: Bytes, start: nat, end: nat, i: nat, j: nat)
    requires start <= end <= |b| && i <= j <= end - start
    ensures b[start..end][i..j] == b[start + i..start + j]
  {
    forall k | 0 <= k < j - i ensures b[start..end][i..j][k] == b[start + i..start + j][k] {
    }
  }

  lemma SliceOf(b: Bytes, offset: nat, field: Bytes, from: nat, n: nat)
    requires At(b, offset, field) && from + n <= |field|
    ensures offset + from + n <= |b| && b[offset + from..offset + from + n] == field[from..from + n]
  {
    SliceOfSlice(b, offset, offset + |field|, from, from + n);
  }

  /** A package's bytes after its puzzle reveal, and after its two fixed parts. */
  function AfterReveal(p: RecoveryPackage): Bytes
    requires Encodable(p)
  {
    U64(p.fundingAmount) + (EncodeTerms(p.channelTerms) + (EncodeOfficialState(p.officialState) + Lists(p)))
  }

  function Lists(p: RecoveryPackage): Bytes
    requires Encodable(p)
  {
    U32(|p.entries|) + (EncodeEntries(p.entries) + (U32(|p.userAuthorizationSignatures|) +
    EncodeSignatures(p.userAuthorizationSignatures)))
  }

  lemma PackageReveal(p: RecoveryPackage)
    requires Encodable(p)
    ensures var b := EncodePackage(p);
            && At(b, 0, p.fundingCoinId) && NumberAt(b, 32, 4, |p.fundingPuzzleReveal|)
            && At(b, 36, p.fundingPuzzleReveal) && RestAt(b, 36 + |p.fundingPuzzleReveal|, AfterReveal(p))
  {
    var b, r1 := EncodePackage(p), AfterReveal(p);
    Whole(b);
    Peel(b, 0, p.fundingCoinId, PutBlob(p.fundingPuzzleReveal) + r1);
    Assoc(U32(|p.fundingPuzzleReveal|), p.fundingPuzzleReveal, r1);
    PeelU32(b, 32, |p.fundingPuzzleReveal|, p.fundingPuzzleReveal + r1);
    Peel(b, 36, p.fundingPuzzleReveal, r1);
  }

  lemma PackageFixed(b: Bytes, p: RecoveryPackage, o: nat)
    requires Encodable(p) && RestAt(b, o, AfterReveal(p))
    ensures NumberAt(b, o, 8, p.fundingAmount)
    ensures At(b, o + 8, EncodeTerms(p.channelTerms)) && At(b, o + 250, EncodeOfficialState(p.officialState))
    ensures RestAt(b, o + 506, Lists(p))
  {
    var r3 := EncodeOfficialState(p.officialState) + Lists(p);
    var r2 := EncodeTerms(p.channelTerms) + r3;
    TermsLayout(p.channelTerms);
    OfficialStateLayout(p.officialState);
    PeelU64(b, o, p.fundingAmount, r2);
    Peel(b, o + 8, EncodeTerms(p.channelTerms), r3);
    Peel(b, o + 250, EncodeOfficialState(p.officialState), Lists(p));
  }

  lemma PackageLists(b: Bytes, p: RecoveryPackage, o: nat)
    requires Encodable(p) && RestAt(b, o, Lists(p))
    ensures var n, signatures := |p.entries|, p.userAuthorizationSignatures;
            && NumberAt(b, o, 4, n) && At(b, o + 4, EncodeEntries(p.entries))
            && NumberAt(b, o + 4 + 120 * n, 4, |signatures|)
            && At(b, o + 8 + 120 * n, EncodeSignatures(signatures))
            && |b| == o + 8 + 120 * n + 96 * |signatures|
  {
    var signatures := p.userAuthorizationSignatures;
    var r7 := EncodeSignatures(signatures);
    var r6 := U32(|signatures|) + r7;
    EntriesLength(p.entries);
    SignaturesLength(signatures);
    PeelU32(b, o, |p.entries|, EncodeEntries(p.entries) + r6);
    Peel(b, o + 4, EncodeEntries(p.entries), r6);
    PeelU32(b, o + 4 + 120 * |p.entries|, |signatures|, r7);
    Ends(r7);
    Peel(b, o + 8 + 120 * |p.entries|, r7, []);
  }

  lemma {:induction false} EntryInList(b: Bytes, entries: seq<LedgerEntry>, o: nat, i: nat)
    requires At(b, o, EncodeEntries(entries)) && i < |entries|
    ensures o + 120 * i + 120 <= |b| && EntryAt(b[o + 120 * i..o + 120 * i + 120], entries[i])
  {
    var from, all := 120 * i, EncodeEntries(entries);
    EntriesLength(entries);
    EntriesLayout(entries, i);
    SliceOf(b, o, all, from, 120);
  }

  lemma {:induction false} SignatureInList(b: Bytes, signatures: seq<Bytes96>, o: nat, i: nat)
    requires At(b, o, EncodeSignatures(signatures)) && i < |signatures|
    ensures At(b, o + 96 * i, signatures[i])
  {
    var from, all := 96 * i, EncodeSignatures(signatures);
    SignaturesLength(signatures);
    SignaturesLayout(signatures, i);
    SliceOf(b, o, all, from, 96);
  }

  ghost predicate EntriesAt(b: Bytes, o: nat, entries: seq<LedgerEntry>) {
    && o + 120 * |entries| <= |b|
    && (forall i :: 0 <= i < |entries| ==> EntryAt(b[o + 120 * i..o + 120 * i + 120], entries[i]))
  }

  ghost predicate SignaturesAt(b: Bytes, o: nat, signatures: seq<Bytes96>) {
    forall i :: 0 <= i < |signatures| ==> At(b, o + 96 * i, signatures[i])
  }

  predicate RevealAt(b: Bytes, p: RecoveryPackage) {
    At(b, 0, p.fundingCoinId) && NumberAt(b, 32, 4, |p.fundingPuzzleReveal|) && At(b, 36, p.fundingPuzzleReveal)
  }

  predicate FixedAt(b: Bytes, p: RecoveryPackage, o: nat) {
    && o + 506 <= |b| && NumberAt(b, o, 8, p.fundingAmount)
    && TermsAt(b[o + 8..o + 250], p.channelTerms) && OfficialStateAt(b[o + 250..o + 506], p.officialState)
  }

  ghost predicate ListsAt(b: Bytes, p: RecoveryPackage, o: nat) {
    var n, signatures := |p.entries|, p.userAuthorizationSignatures;
    && |b| == o + 8 + 120 * n + 96 * |signatures|
    && NumberAt(b, o, 4, n) && EntriesAt(b, o + 4, p.entries)
    && NumberAt(b, o + 4 + 120 * n, 4, |signatures|) && SignaturesAt(b, o + 8 + 120 * n, signatures)
  }

  /** The puzzle reveal with its length, the fixed parts after it, and the two counted lists. */
  ghost predicate PackageAt(b: Bytes, p: RecoveryPackage) {
    var o := 36 + |p.fundingPuzzleReveal|;
    RevealAt(b, p) && FixedAt(b, p, o) && ListsAt(b, p, o + 506)
  }

  lemma AllEntries(b: Bytes, o: nat, entries: seq<LedgerEntry>)
    requires At(b, o, EncodeEntries(entries))
    ensures EntriesAt(b, o, entries)
  {
    EntriesLength(entries);
    forall i | 0 <= i < |entries| ensures EntryAt(b[o + 120 * i..o + 120 * i + 120], entries[i]) {
      EntryInList(b, entries, o, i);
    }
  }

  lemma AllSignatures(b: Bytes, o: nat, signatures: seq<Bytes96>)
    requires At(b, o, EncodeSignatures(signatures))
    ensures SignaturesAt(b, o, signatures)
  {
    forall i | 0 <= i < |signatures| ensures At(b, o + 96 * i, signatures[i]) {
      SignatureInList(b, signatures, o, i);
    }
  }

  lemma FixedLayout(b: Bytes, p: RecoveryPackage, o: nat)
    requires Encodable(p) && RestAt(b, o, AfterReveal(p))
    ensures FixedAt(b, p, o) && RestAt(b, o + 506, Lists(p))
  {
    PackageFixed(b, p, o);
    TermsLayout(p.channelTerms);
    OfficialStateLayout(p.officialState);
  }

  lemma ListsLayout(b: Bytes, p: RecoveryPackage, o: nat)
    requires Encodable(p) && RestAt(b, o, Lists(p))
    ensures ListsAt(b, p, o)
  {
    PackageLists(b, p, o);
    AllEntries(b, o + 4, p.entries);
    AllSignatures(b, o + 8 + 120 * |p.entries|, p.userAuthorizationSignatures);
  }

  lemma PackageLayout(p: RecoveryPackage)
    requires Encodable(p)
    ensures PackageAt(EncodePackage(p), p)
  {
    var b, o := EncodePackage(p), 36 + |p.fundingPuzzleReveal|;
    PackageReveal(p);
    FixedLayout(b, p, o);
    ListsLayout(b, p, o + 506);
  }

  // ---------------------------------------------------------------- confirmations and results

  predicate ConfirmationAt(b: Bytes, d: DeliveryConfirmation) {
    && |b| == 210 && NumberAt(b, 0, 2, 0x0360)
    && At(b, 2, d.networkId) && At(b, 34, d.fundingCoinId) && At(b, 66, d.channelTermsHash)
    && NumberAt(b, 98, 8, d.stateSequence) && At(b, 106, d.checkpointHash) && NumberAt(b, 138, 8, d.entryIndex)
    && At(b, 146, d.authorizationHash) && At(b, 178, d.recoveryPackageContentHash)
  }

  lemma ConfirmationLayout(d: DeliveryConfirmation)
    ensures ConfirmationAt(EncodeConfirmation(d), d)
  {
    var b := EncodeConfirmation(d);
    var r8 := d.recoveryPackageContentHash;
    var r7 := d.authorizationHash + r8;
    var r6 := U64(d.entryIndex) + r7;
    var r5 := d.checkpointHash + r6;
    var r4 := U64(d.stateSequence) + r5;
    var r3 := d.channelTermsHash + r4;
    var r2 := d.fundingCoinId + r3;
    var r1 := d.networkId + r2;
    Whole(b);
    PeelU16(b, 0, PROTOCOL_VERSION, r1);
    Peel(b, 2, d.networkId, r2);
    Peel(b, 34, d.fundingCoinId, r3);
    Peel(b, 66, d.channelTermsHash, r4);
    PeelU64(b, 98, d.stateSequence, r5);
    Peel(b, 106, d.checkpointHash, r6);
    PeelU64(b, 138, d.entryIndex, r7);
    Peel(b, 146, d.authorizationHash, r8);
    Ends(r8);
    Peel(b, 178, r8, []);
  }

  function OptionWidth(some: bool, width: nat): nat {
    if some then 1 + width else 1
  }

  predicate ResultHeadAt(b: Bytes, r: ReservationResult) {
    && NumberAt(b, 0, 2, 0x0360)
    && At(b, 2, r.networkId) && At(b, 34, r.requestId) && At(b, 66, r.fundingCoinId) && At(b, 98, r.reservationNonce)
    && At(b, 130, r.authorizationHash) && NumberAt(b, 162, 2, StatusCode(r.status))
  }

  /** The optional sequence from offset 164, the optional hash from `o`, and what follows them from `q`. */
  predicate ResultTailAt(b: Bytes, r: ReservationResult, o: nat, q: nat) {
    && o == 164 + OptionWidth(r.stateSequence.Some?, 8) && q == o + OptionWidth(r.checkpointHash.Some?, 32)
    && |b| == q + 25
    && At(b, 164, [if r.stateSequence.Some? then 1 else 0])
    && (r.stateSequence.Some? ==> NumberAt(b, 165, 8, r.stateSequence.value))
    && At(b, o, [if r.checkpointHash.Some? then 1 else 0])
    && (r.checkpointHash.Some? ==> At(b, o + 1, r.checkpointHash.value))
    && NumberAt(b, q, 8, r.observedPeakHeight) && NumberAt(b, q + 8, 8, r.acceptanceCutoffHeight)
    && NumberAt(b, q + 16, 8, r.scheduledCloseHeight)
    && At(b, q + 24, [if r.ledgerWritten then 1 else 0])
  }

  /** A result's bytes after its first 164. */
  function ResultRest(r: ReservationResult): Bytes {
    EncodeOptionU64(r.stateSequence) + (EncodeOption32(r.checkpointHash) + (U64(r.observedPeakHeight) + (
    U64(r.acceptanceCutoffHeight) + (U64(r.scheduledCloseHeight) + PutBool(r.ledgerWritten)))))
  }

  lemma ResultHead(r: ReservationResult)
    ensures ResultHeadAt(EncodeResult(r), r) && RestAt(EncodeResult(r), 164, ResultRest(r))
  {
    var b := EncodeResult(r);
    var r6 := U16(StatusCode(r.status)) + ResultRest(r);
    var r5 := r.authorizationHash + r6;
    var r4 := r.reservationNonce + r5;
    var r3 := r.fundingCoinId + r4;
    var r2 := r.requestId + r3;
    var r1 := r.networkId + r2;
    Whole(b);
    PeelU16(b, 0, PROTOCOL_VERSION, r1);
    Peel(b, 2, r.networkId, r2);
    Peel(b, 34, r.requestId, r3);
    Peel(b, 66, r.fundingCoinId, r4);
    Peel(b, 98, r.reservationNonce, r5);
    Peel(b, 130, r.authorizationHash, r6);
    PeelU16(b, 162, StatusCode(r.status), ResultRest(r));
  }

  lemma PeelOptionU64(b: Bytes, offset: nat, v: Option<u64>, rest: Bytes)
    requires RestAt(b, offset, EncodeOptionU64(v) + rest)
    ensures At(b, offset, [if v.Some? then 1 else 0]) && (v.Some? ==> NumberAt(b, offset + 1, 8, v.value))
    ensures RestAt(b, offset + OptionWidth(v.Some?, 8), rest)
  {
    if v.Some? {
      Assoc([1], U64(v.value), rest);
      Peel(b, offset, [1], U64(v.value) + rest);
      PeelU64(b, offset + 1, v.value, rest);
    } else {
      Peel(b, offset, [0], rest);
    }
  }

  lemma PeelOption32(b: Bytes, offset: nat, v: Option<Bytes32>, rest: Bytes)
    requires RestAt(b, offset, EncodeOption32(v) + rest)
    ensures At(b, offset, [if v.Some? then 1 else 0]) && (v.Some? ==> At(b, offset + 1, v.value))
    ensures RestAt(b, offset + OptionWidth(v.Some?, 32), rest)
  {
    if v.Some? {
      Assoc([1], v.value, rest);
      Peel(b, offset, [1], v.value + rest);
      Peel(b, offset + 1, v.value, rest);
    } else {
      Peel(b, offset, [0], rest);
    }
  }

  /** The statuses by the numbers they travel as. */
  lemma StatusCodes()
    ensures StatusCode(Signed) == 1 && StatusCode(Delivered) == 2 && StatusCode(Pending) == 3
            && StatusCode(Unknown) == 4
    ensures StatusCode(RejectedFreezing) == 100 && StatusCode(RejectedCloseable) == 101
            && StatusCode(InvalidAuthorization) == 102 && StatusCode(InsufficientRemainderStatus) == 103
            && StatusCode(NonceConflictStatus) == 104 && StatusCode(LedgerFullStatus) == 105
            && StatusCode(ChannelClosing) == 106 && StatusCode(ChannelFinalized) == 107
    ensures StatusCode(NodeNotSynced) == 200 && StatusCode(RpcUnavailable) == 201
            && StatusCode(ChainStateUncertain) == 202 && StatusCode(ChannelReorgPending) == 203
            && StatusCode(InternalError) == 204
  {
  }

  lemma ResultLayout(r: ReservationResult)
    ensures var o := 164 + OptionWidth(r.stateSequence.Some?, 8);
            && ResultHeadAt(EncodeResult(r), r)
            && ResultTailAt(EncodeResult(r), r, o, o + OptionWidth(r.checkpointHash.Some?, 32))
  {
    var b := EncodeResult(r);
    var o := 164 + OptionWidth(r.stateSequence.Some?, 8);
    var q := o + OptionWidth(r.checkpointHash.Some?, 32);
    var s5 := PutBool(r.ledgerWritten);
    var s4 := U64(r.scheduledCloseHeight) + s5;
    var s3 := U64(r.acceptanceCutoffHeight) + s4;
    var s2 := U64(r.observedPeakHeight) + s3;
    var s1 := EncodeOption32(r.checkpointHash) + s2;
    ResultHead(r);
    PeelOptionU64(b, 164, r.stateSequence, s1);
    PeelOption32(b, o, r.checkpointHash, s2);
    PeelU64(b, q, r.observedPeakHeight, s3);
    PeelU64(b, q + 8, r.acceptanceCutoffHeight, s4);
    PeelU64(b, q + 16, r.scheduledCloseHeight, s5);
    Ends(s5);
    Peel(b, q + 24, s5, []);
  }

  // ---------------------------------------------------------------- what is hashed

  /** A tag, the version and the network, and then this. */
  predicate Framed(b: Bytes, tag: string, networkId: Bytes32, rest: Bytes) {
    && At(b, 0, Ascii(tag)) && NumberAt(b, |tag|, 2, 0x0360) && At(b, |tag| + 2, networkId)
    && RestAt(b, |tag| + 34, rest)
  }

  lemma FramedBy(tag: string, networkId: Bytes32, rest: Bytes)
    ensures Framed(Ascii(tag) + (U16(PROTOCOL_VERSION) + (networkId + rest)), tag, networkId, rest)
  {
    var b := Ascii(tag) + (U16(PROTOCOL_VERSION) + (networkId + rest));
    Whole(b);
    Peel(b, 0, Ascii(tag), U16(PROTOCOL_VERSION) + (networkId + rest));
    PeelU16(b, |tag|, PROTOCOL_VERSION, networkId + rest);
    Peel(b, |tag| + 2, networkId, rest);
  }

  /** What the user signs for an entry. */
  lemma AuthorizationLayout(t: ChannelTerms, termsHash: Bytes32, coin: Bytes32, e: LedgerEntry)
    ensures Framed(AuthorizationPreimage(t, termsHash, coin, e), "XHUB_USER_AUTH_V3_6", t.networkId,
                   coin + (termsHash + EncodeEntry(e)))
  {
    FramedBy("XHUB_USER_AUTH_V3_6", t.networkId, coin + (termsHash + EncodeEntry(e)));
  }

  /** What a checkpoint hash is of. */
  lemma CheckpointPreimageLayout(t: ChannelTerms, k: LedgerCheckpoint)
    ensures Framed(CheckpointPreimage(t, k), "XHUB_LEDGER_CHECKPOINT_V3_6", t.networkId, EncodeCheckpoint(k))
  {
    FramedBy("XHUB_LEDGER_CHECKPOINT_V3_6", t.networkId, EncodeCheckpoint(k));
  }

  /** What state zero's hash is of. */
  lemma StateZeroLayout(t: ChannelTerms, termsHash: Bytes32, coin: Bytes32)
    ensures Framed(StateZeroPreimage(t, termsHash, coin), "XHUB_STATE_ZERO_V3_6", t.networkId,
                   coin + (termsHash + (U64(t.fundingAmount) + t.userRemainderPuzzleHash)))
  {
    FramedBy("XHUB_STATE_ZERO_V3_6", t.networkId,
             coin + (termsHash + (U64(t.fundingAmount) + t.userRemainderPuzzleHash)));
  }

  /** A tag, and then this. */
  predicate Tagged(b: Bytes, tag: string, rest: Bytes) {
    At(b, 0, Ascii(tag)) && RestAt(b, |tag|, rest)
  }

  lemma TaggedBy(tag: string, rest: Bytes)
    ensures Tagged(Ascii(tag) + rest, tag, rest)
  {
    Whole(Ascii(tag) + rest);
    Peel(Ascii(tag) + rest, 0, Ascii(tag), rest);
  }

  /** What the hash of terms is of, and what the HUB signs: a state's checkpoint hash, or a result. */
  lemma SignedLayouts(t: ChannelTerms, checkpointHash: Bytes32, r: ReservationResult)
    ensures Tagged(TermsPreimage(t), "XHUB_CHANNEL_TERMS_V3_6", EncodeTerms(t))
    ensures Tagged(HubStatePreimage(checkpointHash), "XHUB_HUB_STATE_V3_6", checkpointHash)
    ensures Tagged(ResultPreimage(r), "XHUB_RESERVATION_RESULT_V3_6", EncodeResult(r))
  {
    TaggedBy("XHUB_CHANNEL_TERMS_V3_6", EncodeTerms(t));
    TaggedBy("XHUB_HUB_STATE_V3_6", checkpointHash);
    TaggedBy("XHUB_RESERVATION_RESULT_V3_6", EncodeResult(r));
  }

  /** What an entry's leaf is of: its place, its bytes, and the hash its user authorized. */
  lemma EntryPreimageLayout(index: u64, e: LedgerEntry, authorization: Bytes32)
    ensures var b, n := EntryPreimage(index, e, authorization), |"XHUB_LEDGER_ENTRY_V3_6"|;
            && At(b, 0, Ascii("XHUB_LEDGER_ENTRY_V3_6")) && NumberAt(b, n, 8, index)
            && At(b, n + 8, EncodeEntry(e)) && RestAt(b, n + 128, authorization)
  {
    var tag, rest := "XHUB_LEDGER_ENTRY_V3_6", U64(index) + (EncodeEntry(e) + authorization);
    TaggedBy(tag, rest);
    PeelU64(EntryPreimage(index, e, authorization), |tag|, index, EncodeEntry(e) + authorization);
    Peel(EntryPreimage(index, e, authorization), |tag| + 8, EncodeEntry(e), authorization);
  }

  // ---------------------------------------------------------------- the tree and its proofs

  /** What the tree hashes: a leaf's entry hash, two children left first, and for no leaves the bare tag. */
  lemma TreeLayouts(c: Crypto, entryHash: Bytes32, left: Bytes32, right: Bytes32)
    ensures LeafHash(c, entryHash) == c.sha256(Ascii("XHUB_LEDGER_LEAF_V3_6") + entryHash)
    ensures NodeHash(c, left, right) == c.sha256(NodePreimage(left, right))
    ensures At(NodePreimage(left, right), 0, Ascii("XHUB_LEDGER_NODE_V3_6"))
            && At(NodePreimage(left, right), 21, left) && RestAt(NodePreimage(left, right), 53, right)
    ensures MerkleRootOf(c, []) == c.sha256(Ascii("XHUB_LEDGER_EMPTY_V3_6"))
  {
    var tag := "XHUB_LEDGER_NODE_V3_6";
    assert |tag| == 21;
    TaggedBy(tag, left + right);
    Peel(NodePreimage(left, right), 21, left, right);
  }

  /** Each step is 33 bytes: 1 for a sibling on the left, 0 for one on the right, and the sibling. */
  predicate StepAt(b: Bytes, offset: nat, step: MerkleStep) {
    At(b, offset, [if step.side == Left then 1 else 0]) && At(b, offset + 1, step.sibling)
  }

  lemma {:induction false} StepsLayout(steps: seq<MerkleStep>, i: nat)
    requires i < |steps|
    ensures |EncodeSteps(steps)| == 33 * |steps| && StepAt(EncodeSteps(steps), 33 * i, steps[i])
  {
    var b, rest := EncodeSteps(steps), EncodeSteps(steps[1..]);
    var first := [SideByte(steps[0].side)] + steps[0].sibling;
    StepsLength(steps);
    Whole(b);
    Assoc([SideByte(steps[0].side)], steps[0].sibling, rest);
    Peel(b, 0, [SideByte(steps[0].side)], steps[0].sibling + rest);
    Peel(b, 1, steps[0].sibling, rest);
    if i > 0 {
      StepsLayout(steps[1..], i - 1);
      StepMoves(b, rest, i - 1, steps[i]);
    }
  }

  lemma StepMoves(b: Bytes, rest: Bytes, i: nat, step: MerkleStep)
    requires RestAt(b, 33, rest) && StepAt(rest, 33 * i, step)
    ensures StepAt(b, 33 * (i + 1), step)
  {
    var from := 33 * i;
    SliceOfSlice(b, 33, |b|, from, from + 1);
    SliceOfSlice(b, 33, |b|, from + 1, from + 33);
  }

  lemma {:induction false} StepsLength(steps: seq<MerkleStep>)
    ensures |EncodeSteps(steps)| == 33 * |steps|
  {
    if steps != [] {
      StepsLength(steps[1..]);
    }
  }

  lemma ProofLayout(p: MerkleProof)
    requires |p.steps| < 0x1_0000_0000
    ensures var b := EncodeProof(p);
            && NumberAt(b, 0, 4, p.leafIndex) && NumberAt(b, 4, 4, p.leafCount) && NumberAt(b, 8, 4, |p.steps|)
            && RestAt(b, 12, EncodeSteps(p.steps))
  {
    var b, r2 := EncodeProof(p), U32(|p.steps|) + EncodeSteps(p.steps);
    Whole(b);
    PeelU32(b, 0, p.leafIndex, U32(p.leafCount) + r2);
    PeelU32(b, 4, p.leafCount, r2);
    PeelU32(b, 8, |p.steps|, EncodeSteps(p.steps));
  }
}
