/** Checkpoints made from ledgers, the recovery packages that carry them, and why a checkpoint hash binds the
    whole ledger. */
module Packages {
  import opened ByteStrings
  import opened Protocol
  import opened Types
  import opened Ledgers
  import opened Merkle
  import opened Preimages

  // ---------------------------------------------------------------- leaves and the manifest root

  /** The leaf of each entry, before the validity checks that guard it. */
  function LeafDigests(c: Crypto, t: ChannelTerms, coin: Bytes32, entries: seq<LedgerEntry>): (leaves: seq<Bytes32>)
    requires |entries| < 0x1_0000_0000
    ensures |leaves| == |entries|
    ensures forall i :: 0 <= i < |leaves| ==> leaves[i] == LeafHash(c, EntryDigest(c, t, coin, entries[i], i))
  {
    seq(|entries|, i requires 0 <= i < |entries| => LeafHash(c, EntryDigest(c, t, coin, entries[i], i)))
  }

  /** `leaf_hashes`: the leaves in order, or the first entry's error. */
  function LeafHashes(c: Crypto, t: ChannelTerms, coin: Bytes32, entries: seq<LedgerEntry>)
    : Result<seq<Bytes32>, ProtocolError>
    requires |entries| < 0x1_0000_0000
  {
    if entries == [] then Success([]) else
    var leaves :- LeafHashes(c, t, coin, Front(entries));
    var hash :- EntryHash(c, t, coin, Last(entries), |entries| - 1);
    Success(leaves + [LeafHash(c, hash)])
  }

  function ManifestRoot(c: Crypto, t: ChannelTerms, coin: Bytes32, entries: seq<LedgerEntry>)
    : Result<Bytes32, ProtocolError>
    requires |entries| < 0x1_0000_0000
  {
    var leaves :- LeafHashes(c, t, coin, entries);
    Success(MerkleRootOf(c, leaves))
  }

  function RootDigest(c: Crypto, t: ChannelTerms, coin: Bytes32, entries: seq<LedgerEntry>): Bytes32
    requires |entries| < 0x1_0000_0000
  {
    MerkleRootOf(c, LeafDigests(c, t, coin, entries))
  }

  lemma {:induction false} LeavesOfValid(c: Crypto, t: ChannelTerms, coin: Bytes32, entries: seq<LedgerEntry>)
    requires |entries| < 0x1_0000_0000 && ValidTerms(c, t) && ValidEntries(c, entries)
    ensures LeafHashes(c, t, coin, entries) == Success(LeafDigests(c, t, coin, entries))
  {
    if entries != [] {
      LeavesOfValid(c, t, coin, Front(entries));
      assert ValidateEntry(c, entries[|entries| - 1]).Pass?;
      assert LeafDigests(c, t, coin, entries) ==
             LeafDigests(c, t, coin, Front(entries))
                 + [LeafHash(c, EntryDigest(c, t, coin, Last(entries), |entries| - 1))];
    }
  }

  // ---------------------------------------------------------------- checkpoints

  /** `Ledger::checkpoint`: validate the ledger, commit to it, validate the commitment. */
  function MakeCheckpoint(c: Crypto, t: ChannelTerms, coin: Bytes32, sequence: u64, previous: Bytes32,
                          entries: seq<LedgerEntry>): Result<LedgerCheckpoint, ProtocolError>
  {
    var totals :- ValidateLedger(c, t, entries);
    var termsHash :- TermsHash(c, t);
    var root :- ManifestRoot(c, t, coin, entries);
    var k := LedgerCheckpoint(coin, termsHash, sequence, previous, root, |entries|, totals.0, totals.1);
    :- ValidateCheckpoint(c, t, k);
    Success(k)
  }

  /** The checkpoint of a valid ledger, with the checks that guard it left out. */
  function CheckpointOf(c: Crypto, t: ChannelTerms, coin: Bytes32, sequence: u64, previous: Bytes32,
                        entries: seq<LedgerEntry>): LedgerCheckpoint
    requires |entries| <= 64 && Total(entries) <= t.fundingAmount
  {
    LedgerCheckpoint(coin, TermsDigest(c, t), sequence, previous, RootDigest(c, t, coin, entries), |entries|,
      Total(entries), t.fundingAmount - Total(entries))
  }

  /** A valid ledger always gets the checkpoint that commits to it, and it conserves the funding. */
  lemma CheckpointOfValid(c: Crypto, t: ChannelTerms, coin: Bytes32, sequence: u64, previous: Bytes32,
                          entries: seq<LedgerEntry>)
    requires ValidTerms(c, t) && ValidLedger(c, t, entries) && sequence <= MAX_PROTOCOL_U64
    ensures MakeCheckpoint(c, t, coin, sequence, previous, entries) ==
            Success(CheckpointOf(c, t, coin, sequence, previous, entries))
    ensures ValidateCheckpoint(c, t, CheckpointOf(c, t, coin, sequence, previous, entries)).Pass?
  {
    TermsFacts(c, t);
    LedgerAcceptedIffValid(c, t, entries);
    LeavesOfValid(c, t, coin, entries);
    CheckpointFacts(c, t, CheckpointOf(c, t, coin, sequence, previous, entries));
  }

  // ---------------------------------------------------------------- recovery packages

  function VerifyAuthorization(c: Crypto, t: ChannelTerms, coin: Bytes32, e: LedgerEntry, signature: Bytes96): Check {
    var message := AuthorizationHash(c, t, coin, e);
    if message.Failure? then Fail(message.error)
    else VerifyHash(c, t.userPublicKey, message.value, signature)
  }

  /** The loop over entries zipped with signatures: the first failure, if any. */
  function VerifyAuthorizations(c: Crypto, t: ChannelTerms, coin: Bytes32, entries: seq<LedgerEntry>,
                                signatures: seq<Bytes96>): Check
    requires |entries| == |signatures|
  {
    if entries == [] then Pass
    else VerifyAuthorizations(c, t, coin, Front(entries), signatures[..|entries| - 1])
         .Then(VerifyAuthorization(c, t, coin, Last(entries), signatures[|entries| - 1]))
  }

  ghost predicate Authorized(c: Crypto, t: ChannelTerms, coin: Bytes32, entries: seq<LedgerEntry>,
                             signatures: seq<Bytes96>)
    requires |entries| == |signatures|
  {
    forall i :: 0 <= i < |entries| ==> VerifyAuthorization(c, t, coin, entries[i], signatures[i]).Pass?
  }

  lemma LastAuthorized(c: Crypto, t: ChannelTerms, coin: Bytes32, entries: seq<LedgerEntry>, signatures: seq<Bytes96>)
    requires |entries| == |signatures| > 0
    ensures Authorized(c, t, coin, entries, signatures) <==>
            && Authorized(c, t, coin, Front(entries), signatures[..|entries| - 1])
            && VerifyAuthorization(c, t, coin, Last(entries), signatures[|entries| - 1]).Pass?
  {
    var n := |entries| - 1;
    if Authorized(c, t, coin, entries, signatures) {
      forall i | 0 <= i < n ensures VerifyAuthorization(c, t, coin, Front(entries)[i], signatures[..n][i]).Pass? {
        assert VerifyAuthorization(c, t, coin, entries[i], signatures[i]).Pass?;
      }
    }
    if Authorized(c, t, coin, Front(entries), signatures[..n]) {
      forall i | 0 <= i < n ensures VerifyAuthorization(c, t, coin, entries[i], signatures[i]).Pass? {
        assert VerifyAuthorization(c, t, coin, Front(entries)[i], signatures[..n][i]).Pass?;
      }
    }
  }

  lemma {:induction false} AuthorizationsMeaning(c: Crypto, t: ChannelTerms, coin: Bytes32, entries: seq<LedgerEntry>,
                                                 signatures: seq<Bytes96>)
    requires |entries| == |signatures|
    ensures VerifyAuthorizations(c, t, coin, entries, signatures).Pass? <==>
            Authorized(c, t, coin, entries, signatures)
  {
    if entries != [] {
      AuthorizationsMeaning(c, t, coin, Front(entries), signatures[..|entries| - 1]);
      LastAuthorized(c, t, coin, entries, signatures);
    }
  }

  /** The comparison of a package's checkpoint with the ledger it carries. */
  function CompareCheckpoint(c: Crypto, p: RecoveryPackage, totals: (u64, u64)): Check
    requires |p.entries| <= 64
  {
    var k := p.officialState.checkpoint;
    if k.entryCount != |p.entries| || k.reservedTotal != totals.0 || k.userRemainder != totals.1 then
      Fail(CheckpointMismatch)
    else
      var root := ManifestRoot(c, p.channelTerms, p.fundingCoinId, p.entries);
      if root.Failure? then Fail(root.error)
      else if k.manifestRoot != root.value then Fail(CheckpointMismatch)
      else Pass
  }

  function ValidatePackage(c: Crypto, p: RecoveryPackage): Check {
    var terms := ValidateTerms(c, p.channelTerms);
    if terms.Fail? then terms
    else if |p.fundingPuzzleReveal| > MAX_CANONICAL_BLOB_BYTES then
      Fail(LengthLimit(|p.fundingPuzzleReveal|, MAX_CANONICAL_BLOB_BYTES))
    else if p.fundingCoinId != p.officialState.checkpoint.fundingCoinId
         || p.fundingAmount != p.channelTerms.fundingAmount
         || |p.entries| != |p.userAuthorizationSignatures| then
      Fail(RecoveryCount)
    else
      var totals := ValidateLedger(c, p.channelTerms, p.entries);
      if totals.Failure? then Fail(totals.error)
      else
        CompareCheckpoint(c, p, totals.value)
        .Then(VerifyOfficialState(c, p.channelTerms, p.officialState))
        .Then(VerifyAuthorizations(c, p.channelTerms, p.fundingCoinId, p.entries, p.userAuthorizationSignatures))
  }

  /** What a valid package is, said without the order of the checks. */
  ghost predicate ValidPackage(c: Crypto, p: RecoveryPackage) {
    && ValidTerms(c, p.channelTerms)
    && |p.fundingPuzzleReveal| <= MAX_CANONICAL_BLOB_BYTES
    && p.fundingCoinId == p.officialState.checkpoint.fundingCoinId
    && p.fundingAmount == p.channelTerms.fundingAmount
    && |p.entries| == |p.userAuthorizationSignatures|
    && ValidLedger(c, p.channelTerms, p.entries)
    && p.officialState.checkpoint.entryCount == |p.entries|
    && p.officialState.checkpoint.reservedTotal == Total(p.entries)
    && p.officialState.checkpoint.userRemainder == p.channelTerms.fundingAmount - Total(p.entries)
    && p.officialState.checkpoint.manifestRoot == RootDigest(c, p.channelTerms, p.fundingCoinId, p.entries)
    && VerifyOfficialState(c, p.channelTerms, p.officialState).Pass?
    && Authorized(c, p.channelTerms, p.fundingCoinId, p.entries, p.userAuthorizationSignatures)
  }

  lemma ComparisonMeaning(c: Crypto, p: RecoveryPackage, totals: (u64, u64))
    requires |p.entries| <= 64 && ValidTerms(c, p.channelTerms) && ValidEntries(c, p.entries)
    ensures CompareCheckpoint(c, p, totals).Pass? <==>
            && p.officialState.checkpoint.entryCount == |p.entries|
            && p.officialState.checkpoint.reservedTotal == totals.0
            && p.officialState.checkpoint.userRemainder == totals.1
            && p.officialState.checkpoint.manifestRoot == RootDigest(c, p.channelTerms, p.fundingCoinId, p.entries)
  {
    LeavesOfValid(c, p.channelTerms, p.fundingCoinId, p.entries);
  }

  lemma PackageAcceptedIffValid(c: Crypto, p: RecoveryPackage)
    ensures ValidatePackage(c, p).Pass? <==> ValidPackage(c, p)
  {
    TermsFacts(c, p.channelTerms);
    if ValidTerms(c, p.channelTerms) && |p.entries| == |p.userAuthorizationSignatures| {
      LedgerAcceptedIffValid(c, p.channelTerms, p.entries);
      if ValidLedger(c, p.channelTerms, p.entries) {
        var total := Total(p.entries);
        ComparisonMeaning(c, p, (total, p.channelTerms.fundingAmount - total));
        AuthorizationsMeaning(c, p.channelTerms, p.fundingCoinId, p.entries, p.userAuthorizationSignatures);
      }
    }
  }

  // ---------------------------------------------------------------- a checkpoint hash binds its ledger

  ghost function EntryInputs(c: Crypto, t: ChannelTerms, coin: Bytes32, entries: seq<LedgerEntry>): set<Bytes>
    requires |entries| <= 64
  {
    (set i: u64 | 0 <= i < |entries| :: EntryPreimage(i, entries[i], AuthorizationDigest(c, t, coin, entries[i]))) +
    (set i: u64 | 0 <= i < |entries| :: LeafPreimage(EntryDigest(c, t, coin, entries[i], i)))
  }

  /** Every string hashed on the way from a package's entries to its checkpoint hash. */
  ghost function PackageInputs(c: Crypto, p: RecoveryPackage): set<Bytes>
    requires |p.entries| <= 64
  {
    {CheckpointPreimage(p.channelTerms, p.officialState.checkpoint), TermsPreimage(p.channelTerms)} +
    EntryInputs(c, p.channelTerms, p.fundingCoinId, p.entries) +
    TreeInputs(c, LeafDigests(c, p.channelTerms, p.fundingCoinId, p.entries))
  }

  lemma LeafPreimageInjective(a: Bytes32, b: Bytes32)
    requires LeafPreimage(a) == LeafPreimage(b)
    ensures a == b
  {
    Split(LeafPreimage(a)[..|LeafPreimage(a)| - 32], a, LeafPreimage(b)[..|LeafPreimage(b)| - 32], b);
  }

  lemma LeafBindsEntry(c: Crypto, t: ChannelTerms, coin: Bytes32, a: seq<LedgerEntry>, b: seq<LedgerEntry>, i: u64)
    requires |a| == |b| <= 64 && i < |a|
    requires LeafDigests(c, t, coin, a)[i] == LeafDigests(c, t, coin, b)[i]
    requires CollisionFree(c.sha256, EntryInputs(c, t, coin, a) + EntryInputs(c, t, coin, b))
    ensures a[i] == b[i]
  {
    var x, y := AuthorizationDigest(c, t, coin, a[i]), AuthorizationDigest(c, t, coin, b[i]);
    assert LeafPreimage(EntryDigest(c, t, coin, a[i], i)) in EntryInputs(c, t, coin, a);
    assert LeafPreimage(EntryDigest(c, t, coin, b[i], i)) in EntryInputs(c, t, coin, b);
    LeafPreimageInjective(EntryDigest(c, t, coin, a[i], i), EntryDigest(c, t, coin, b[i], i));
    assert EntryPreimage(i, a[i], x) in EntryInputs(c, t, coin, a);
    assert EntryPreimage(i, b[i], y) in EntryInputs(c, t, coin, b);
    EntryPreimageInjective(i, a[i], x, i, b[i], y);
  }

  /** The first half of binding: the checkpoint and the terms. */
  lemma CheckpointBindsTerms(c: Crypto, t: ChannelTerms, k: LedgerCheckpoint, u: ChannelTerms, l: LedgerCheckpoint)
    requires ValidateCheckpoint(c, t, k).Pass? && ValidateCheckpoint(c, u, l).Pass?
    requires CheckpointDigest(c, t, k) == CheckpointDigest(c, u, l)
    requires CollisionFree(c.sha256,
                           {CheckpointPreimage(t, k), TermsPreimage(t), CheckpointPreimage(u, l), TermsPreimage(u)})
    ensures k == l && t == u
  {
    var inputs := {CheckpointPreimage(t, k), TermsPreimage(t), CheckpointPreimage(u, l), TermsPreimage(u)};
    NoCollision(c.sha256, inputs, CheckpointPreimage(t, k), CheckpointPreimage(u, l));
    CheckpointPreimageInjective(t, k, u, l);
    CheckpointFacts(c, t, k);
    CheckpointFacts(c, u, l);
    NoCollision(c.sha256, inputs, TermsPreimage(t), TermsPreimage(u));
    TermsPreimageInjective(c, t, u);
  }

  /** The second half: the root binds the entries. */
  lemma RootBindsEntries(c: Crypto, t: ChannelTerms, coin: Bytes32, a: seq<LedgerEntry>, b: seq<LedgerEntry>)
    requires |a| == |b| <= 64 && RootDigest(c, t, coin, a) == RootDigest(c, t, coin, b)
    requires CollisionFree(c.sha256, EntryInputs(c, t, coin, a) + EntryInputs(c, t, coin, b))
    requires CollisionFree(c.sha256,
                           TreeInputs(c, LeafDigests(c, t, coin, a)) + TreeInputs(c, LeafDigests(c, t, coin, b)))
    ensures a == b
  {
    RootInjective(c, LeafDigests(c, t, coin, a), LeafDigests(c, t, coin, b));
    forall i: u64 | i < |a| ensures a[i] == b[i] {
      LeafBindsEntry(c, t, coin, a, b, i);
    }
  }

  /** Two valid packages with the same checkpoint hash carry the same coin, checkpoint, terms and entries, or two of
      the strings hashed to make them collide. */
  lemma CheckpointBindsLedger(c: Crypto, p: RecoveryPackage, q: RecoveryPackage)
    requires ValidPackage(c, p) && ValidPackage(c, q)
    requires CheckpointDigest(c, p.channelTerms, p.officialState.checkpoint) ==
             CheckpointDigest(c, q.channelTerms, q.officialState.checkpoint)
    requires CollisionFree(c.sha256, PackageInputs(c, p) + PackageInputs(c, q))
    ensures p.officialState.checkpoint == q.officialState.checkpoint
    ensures p.fundingCoinId == q.fundingCoinId && p.channelTerms == q.channelTerms && p.entries == q.entries
  {
    var t, u, coin := p.channelTerms, q.channelTerms, p.fundingCoinId;
    var k, l := p.officialState.checkpoint, q.officialState.checkpoint;
    var inputs := PackageInputs(c, p) + PackageInputs(c, q);
    OfficialStateIsValid(c, t, p.officialState);
    OfficialStateIsValid(c, u, q.officialState);
    FewerInputs(c.sha256, inputs,
                {CheckpointPreimage(t, k), TermsPreimage(t), CheckpointPreimage(u, l), TermsPreimage(u)});
    CheckpointBindsTerms(c, t, k, u, l);
    FewerInputs(c.sha256, inputs, EntryInputs(c, t, coin, p.entries) + EntryInputs(c, t, coin, q.entries));
    FewerInputs(c.sha256, inputs,
                TreeInputs(c, LeafDigests(c, t, coin, p.entries)) + TreeInputs(c, LeafDigests(c, t, coin, q.entries)));
    RootBindsEntries(c, t, coin, p.entries, q.entries);
  }

  lemma OfficialStateIsValid(c: Crypto, t: ChannelTerms, s: OfficialState)
    requires VerifyOfficialState(c, t, s).Pass?
    ensures ValidateCheckpoint(c, t, s.checkpoint).Pass?
  {
  }
}
