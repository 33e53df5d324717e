/** Custody: attesters, their attestations, and when enough of them make a channel ready. */
module Custody {
  import opened ByteStrings
  import opened Protocol
  import opened Types
  import opened Packages
  import opened Watchtower

  const CUSTODY_ATTESTATION_DOMAIN: Bytes := Ascii("XHUB_WATCHTOWER_CUSTODY_ATTESTATION_V3_6")
  const DELIVERY_CONFIRMATION_DOMAIN: Bytes := Ascii("XHUB_DELIVERY_CONFIRMATION_V3_6")
  const RECOVERY_PACKAGE_DOMAIN: Bytes := Ascii("XHUB_RECOVERY_PACKAGE_V3_6")

  datatype CustodyError =
    | Invalid(reason: string) | ProtocolFailure(cause: ProtocolError) | Corrupt(reason: string)
    | Database(reason: string)
    | PackageNotFound | EntryNotFound | AttesterConflict | MerchantConfirmationRequired | CustodyAttestationMismatch
    | InvalidCustodyAttestationSignature | DuplicateAttester

  datatype Attester = Attester(domain: Bytes, key: Bytes48)

  datatype Attestation = Attestation(
    fundingCoinId: Bytes32, stateSequence: u64, checkpointHash: Bytes32, contentHash: Bytes32, entryIndex: u64,
    authorizationHash: Bytes32, deliveryHash: Bytes32)

  datatype SignedAttestation = SignedAttestation(
    attestation: Attestation, attesterId: Bytes, domain: Bytes, key: Bytes48, signature: Bytes96)

  /** The primary key of the attestations table. */
  datatype RowKey = RowKey(coin: Bytes32, sequence: u64, entryIndex: u64, attesterId: Bytes)

  datatype Row = Row(attestation: Attestation, domain: Bytes, key: Bytes48, signature: Bytes96)

  datatype Store = Store(attesters: map<Bytes, Attester>, rows: map<RowKey, Row>)

  /** Packages and merchant confirmations, as other components stored them. */
  datatype Deliveries = Deliveries(packages: map<(Bytes32, u64), RecoveryPackage>, merchants: set<DeliveryConfirmation>)

  // ---------------------------------------------------------------- attestations

  function EncodeAttestation(a: Attestation): Bytes {
    U16(PROTOCOL_VERSION) + (a.fundingCoinId + (U64(a.stateSequence) + (a.checkpointHash + (a.contentHash + (
    U64(a.entryIndex) + (a.authorizationHash + a.deliveryHash))))))
  }

  function AttestationHash(c: Crypto, a: Attestation): Bytes32 {
    c.sha256(CUSTODY_ATTESTATION_DOMAIN + EncodeAttestation(a))
  }

  /** `confirmation_for`: what a merchant confirms about one entry of a package. */
  function ConfirmationFor(c: Crypto, p: RecoveryPackage, index: u64): Result<DeliveryConfirmation, CustodyError> {
    var valid := ValidatePackage(c, p);
    if valid.Fail? then Failure(ProtocolFailure(valid.error))
    else if index >= |p.entries| then Failure(EntryNotFound)
    else if !Encodable(p) then Failure(Invalid("package too large"))
    else
      var k := p.officialState.checkpoint;
      Success(DeliveryConfirmation(
        p.channelTerms.networkId, p.fundingCoinId, TermsDigest(c, p.channelTerms), k.stateSequence,
        CheckpointDigest(c, p.channelTerms, k), index,
        AuthorizationDigest(c, p.channelTerms, p.fundingCoinId, p.entries[index]),
        c.sha256(RECOVERY_PACKAGE_DOMAIN + EncodePackage(p))))
  }

  function FindConfirmation(c: Crypto, d: Deliveries, coin: Bytes32, sequence: u64, index: u64)
    : Result<DeliveryConfirmation, CustodyError>
  {
    if (coin, sequence) !in d.packages then Failure(PackageNotFound)
    else ConfirmationFor(c, d.packages[(coin, sequence)], index)
  }

  function AttestationOf(c: Crypto, coin: Bytes32, sequence: u64, index: u64, k: DeliveryConfirmation)
    : Result<Attestation, CustodyError>
  {
    var valid := ValidateConfirmation(k);
    if valid.Fail? then Failure(ProtocolFailure(valid.error))
    else Success(Attestation(coin, sequence, k.checkpointHash, k.recoveryPackageContentHash, index, k.authorizationHash,
                             c.sha256(DELIVERY_CONFIRMATION_DOMAIN + EncodeConfirmation(k))))
  }

  /** `custody_attestation`: what every attester of this entry signs, once the merchant has confirmed. */
  function ExpectedAttestation(c: Crypto, d: Deliveries, coin: Bytes32, sequence: u64, index: u64)
    : Result<Attestation, CustodyError>
  {
    var k :- FindConfirmation(c, d, coin, sequence, index);
    if k !in d.merchants then Failure(MerchantConfirmationRequired)
    else AttestationOf(c, coin, sequence, index, k)
  }

  // ---------------------------------------------------------------- registering and recording

  /** Another attester already has this key. */
  predicate KeyTaken(attesters: map<Bytes, Attester>, id: Bytes, key: Bytes48) {
    exists other :: other in attesters && other != id && attesters[other].key == key
  }

  function RegisterAttester(c: Crypto, s: Store, id: Bytes, domain: Bytes, key: Bytes48, now: u64)
    : Result<Store, CustodyError>
  {
    if !ValidName(c, id) || !ValidName(c, domain) then Failure(Invalid("attester name"))
    else if ParsePublicKey(c, key).Fail? then Failure(ProtocolFailure(ParsePublicKey(c, key).error))
    else if KeyTaken(s.attesters, id, key) then Failure(AttesterConflict)
    else if now > MAX_PROTOCOL_U64 then Failure(Invalid("u64 exceeds SQLite range"))
    else if id in s.attesters then
      if s.attesters[id] == Attester(domain, key) then Success(s) else Failure(AttesterConflict)
    else Success(s.(attesters := s.attesters[id := Attester(domain, key)]))
  }

  /** The checks a signed attestation meets before it is stored. */
  function CheckSigned(c: Crypto, s: Store, d: Deliveries, signed: SignedAttestation): Outcome<CustodyError> {
    var a := signed.attestation;
    var signature := ParseSignature(c, signed.signature);
    if !ValidName(c, signed.attesterId) then Fail(Invalid("attester name"))
    else if signature.Fail? then Fail(ProtocolFailure(signature.error))
    else if signed.attesterId !in s.attesters then Fail(Invalid("unknown or inactive custody attester"))
    else if s.attesters[signed.attesterId] != Attester(signed.domain, signed.key) then Fail(AttesterConflict)
    else
      var expected := ExpectedAttestation(c, d, a.fundingCoinId, a.stateSequence, a.entryIndex);
      if expected.Failure? then Fail(expected.error)
      else if a != expected.value then Fail(CustodyAttestationMismatch)
      else if VerifyHash(c, signed.key, AttestationHash(c, a), signed.signature).Fail? then
        Fail(InvalidCustodyAttestationSignature)
      else Pass
  }

  function KeyOf(signed: SignedAttestation): RowKey {
    RowKey(signed.attestation.fundingCoinId, signed.attestation.stateSequence, signed.attestation.entryIndex,
           signed.attesterId)
  }

  /** Another row of this entry already carries this attester key. */
  predicate RowKeyTaken(rows: map<RowKey, Row>, k: RowKey, key: Bytes48) {
    exists j :: j in rows && j.coin == k.coin && j.sequence == k.sequence && j.entryIndex == k.entryIndex
        && rows[j].key == key
  }

  function RecordAttestation(c: Crypto, s: Store, d: Deliveries, signed: SignedAttestation, now: u64)
    : Result<Store, CustodyError>
  {
    var checked := CheckSigned(c, s, d, signed);
    var k := KeyOf(signed);
    if checked.Fail? then Failure(checked.error)
    else if k.sequence > MAX_PROTOCOL_U64 || k.entryIndex > MAX_PROTOCOL_U64 || now > MAX_PROTOCOL_U64 then
      Failure(Invalid("u64 exceeds SQLite range"))
    else if k in s.rows then
      if s.rows[k].attestation == signed.attestation && s.rows[k].signature == signed.signature then Success(s)
      else Failure(DuplicateAttester)
    else if k.sequence == 0 || RowKeyTaken(s.rows, k, signed.key) then Failure(Database("no row for this attester"))
    else Success(s.(rows := s.rows[k := Row(signed.attestation, signed.domain, signed.key, signed.signature)]))
  }

  // ---------------------------------------------------------------- greenlights

  /** The stored rows that attest exactly this. */
  function Matching(rows: map<RowKey, Row>, a: Attestation): set<RowKey> {
    set k | k in rows && rows[k].attestation == a
  }

  function Keys(rows: map<RowKey, Row>, a: Attestation): set<Bytes48> {
    set k | k in Matching(rows, a) :: rows[k].key
  }

  function Domains(rows: map<RowKey, Row>, a: Attestation): set<Bytes> {
    set k | k in Matching(rows, a) :: rows[k].domain
  }

  datatype Greenlight = Greenlight(attestation: Attestation, merchantDelivered: bool, threshold: u16,
                                   attesterCount: u16, domainCount: u16, ready: bool)

  /** The two distinct counts, as 16-bit numbers. */
  function CountRows(rows: map<RowKey, Row>, a: Attestation, delivered: bool)
    : Result<(Attestation, bool, u16, u16), CustodyError>
  {
    if |Keys(rows, a)| >= 0x1_0000 then Failure(Corrupt("custody attester count"))
    else if |Domains(rows, a)| >= 0x1_0000 then Failure(Corrupt("custody failure domain count"))
    else Success((a, delivered, |Keys(rows, a)|, |Domains(rows, a)|))
  }

  /** What both greenlights count. */
  function Count(c: Crypto, s: Store, d: Deliveries, coin: Bytes32, sequence: u64, index: u64, threshold: u16)
    : Result<(Attestation, bool, u16, u16), CustodyError>
  {
    if !(1 <= threshold <= 3) then Failure(Invalid("custody threshold must be 1, 2, or 3"))
    else
      var k :- FindConfirmation(c, d, coin, sequence, index);
      var a :- AttestationOf(c, coin, sequence, index, k);
      CountRows(s.rows, a, k in d.merchants)
  }

  function ProductionGreenlight(c: Crypto, s: Store, d: Deliveries, coin: Bytes32, sequence: u64, index: u64,
                                threshold: u16)
    : Result<Greenlight, CustodyError>
  {
    var (a, delivered, keys, domains) :- Count(c, s, d, coin, sequence, index, threshold);
    Success(Greenlight(a, delivered, threshold, keys, domains, delivered && keys >= threshold && domains >= threshold))
  }

  function TestGreenlight(c: Crypto, s: Store, d: Deliveries, coin: Bytes32, sequence: u64, index: u64, threshold: u16)
    : Result<Greenlight, CustodyError>
  {
    var (a, delivered, keys, domains) :- Count(c, s, d, coin, sequence, index, threshold);
    Success(Greenlight(a, delivered, threshold, keys, domains, delivered && keys >= threshold))
  }

  // ---------------------------------------------------------------- the invariant

  ghost predicate AttestersOk(attesters: map<Bytes, Attester>) {
    forall i, j :: (i in attesters && j in attesters && attesters[i].key == attesters[j].key) ==> i == j
  }

  /** A row is filed under what it attests, for a registered attester, whose signature on it verifies. */
  ghost predicate RowOk(c: Crypto, s: Store, k: RowKey)
    requires k in s.rows
  {
    var r := s.rows[k];
    && k == RowKey(r.attestation.fundingCoinId, r.attestation.stateSequence, r.attestation.entryIndex, k.attesterId)
    && k.attesterId in s.attesters && s.attesters[k.attesterId] == Attester(r.domain, r.key)
    && VerifyHash(c, r.key, AttestationHash(c, r.attestation), r.signature).Pass?
  }

  ghost predicate StoreOk(c: Crypto, s: Store) {
    AttestersOk(s.attesters) && forall k {:trigger RowOk(c, s, k)} :: k in s.rows ==> RowOk(c, s, k)
  }

  /** Stores only grow. */
  predicate Grows(a: Store, b: Store) {
    && (forall i :: i in a.attesters ==> i in b.attesters && b.attesters[i] == a.attesters[i])
    && (forall k :: k in a.rows ==> k in b.rows && b.rows[k] == a.rows[k])
  }

  lemma RegistrationKeeps(c: Crypto, s: Store, id: Bytes, domain: Bytes, key: Bytes48, now: u64)
    requires StoreOk(c, s) && RegisterAttester(c, s, id, domain, key, now).Success?
    ensures StoreOk(c, RegisterAttester(c, s, id, domain, key, now).value)
    ensures Grows(s, RegisterAttester(c, s, id, domain, key, now).value)
  {
    var after := RegisterAttester(c, s, id, domain, key, now).value;
    forall k | k in after.rows ensures RowOk(c, after, k) {
      assert RowOk(c, s, k);
    }
  }

  lemma SignedFacts(c: Crypto, s: Store, d: Deliveries, signed: SignedAttestation)
    requires CheckSigned(c, s, d, signed).Pass?
    ensures signed.attesterId in s.attesters && s.attesters[signed.attesterId] == Attester(signed.domain, signed.key)
    ensures VerifyHash(c, signed.key, AttestationHash(c, signed.attestation), signed.signature).Pass?
    ensures ExpectedAttestation(c, d, signed.attestation.fundingCoinId, signed.attestation.stateSequence,
                                signed.attestation.entryIndex)
            == Success(signed.attestation)
  {
  }

  lemma NewRowKeeps(c: Crypto, s: Store, signed: SignedAttestation)
    requires StoreOk(c, s) && KeyOf(signed) !in s.rows
    requires signed.attesterId in s.attesters && s.attesters[signed.attesterId] == Attester(signed.domain, signed.key)
    requires VerifyHash(c, signed.key, AttestationHash(c, signed.attestation), signed.signature).Pass?
    ensures StoreOk(c,
                    s.(rows := s.rows[KeyOf(signed) :=
                                      Row(signed.attestation, signed.domain, signed.key, signed.signature)]))
  {
    var after := s.(rows :=
                    s.rows[KeyOf(signed) := Row(signed.attestation, signed.domain, signed.key, signed.signature)]);
    forall k | k in after.rows ensures RowOk(c, after, k) {
      if k in s.rows {
        assert RowOk(c, s, k);
      }
    }
  }

  lemma RecordingWrites(c: Crypto, s: Store, d: Deliveries, signed: SignedAttestation, now: u64)
    requires RecordAttestation(c, s, d, signed, now).Success?
    ensures CheckSigned(c, s, d, signed).Pass?
    ensures RecordAttestation(c, s, d, signed, now).value ==
            if KeyOf(signed) in s.rows then s
            else
              var row := Row(signed.attestation, signed.domain, signed.key, signed.signature);
              s.(rows := s.rows[KeyOf(signed) := row])
  {
  }

  lemma RecordingKeeps(c: Crypto, s: Store, d: Deliveries, signed: SignedAttestation, now: u64)
    requires StoreOk(c, s) && RecordAttestation(c, s, d, signed, now).Success?
    ensures StoreOk(c, RecordAttestation(c, s, d, signed, now).value)
    ensures Grows(s, RecordAttestation(c, s, d, signed, now).value)
  {
    RecordingWrites(c, s, d, signed, now);
    SignedFacts(c, s, d, signed);
    if KeyOf(signed) !in s.rows {
      NewRowKeeps(c, s, signed);
    }
  }

  /** A key is taken in a row exactly when its attester already has that row, so the unique column never decides. */
  lemma KeyTakenIff(c: Crypto, s: Store, d: Deliveries, signed: SignedAttestation)
    requires StoreOk(c, s) && CheckSigned(c, s, d, signed).Pass?
    ensures RowKeyTaken(s.rows, KeyOf(signed), signed.key) <==> KeyOf(signed) in s.rows
  {
    var k := KeyOf(signed);
    if k in s.rows {
      assert RowOk(c, s, k);
    }
    forall j | j in s.rows && j.coin == k.coin && j.sequence == k.sequence && j.entryIndex == k.entryIndex
        && s.rows[j].key == signed.key
      ensures j == k
    {
      assert RowOk(c, s, j);
    }
  }

  // ---------------------------------------------------------------- what readiness means

  /** Stored rows that attest exactly this, no two sharing a key or a failure domain. */
  ghost predicate Quorum(rows: map<RowKey, Row>, a: Attestation, chosen: seq<RowKey>) {
    && (forall i :: 0 <= i < |chosen| ==> chosen[i] in Matching(rows, a))
    && (forall i, j :: 0 <= i < j < |chosen| ==>
          rows[chosen[i]].key != rows[chosen[j]].key && rows[chosen[i]].domain != rows[chosen[j]].domain)
  }

  lemma SameKeySameDomain(c: Crypto, s: Store, i: RowKey, j: RowKey)
    requires StoreOk(c, s) && i in s.rows && j in s.rows && s.rows[i].key == s.rows[j].key
    ensures s.rows[i].domain == s.rows[j].domain
  {
    assert RowOk(c, s, i) && RowOk(c, s, j);
  }

  /** From `t` distinct domains, `t` rows with distinct domains, and so with distinct keys. */
  lemma {:induction false} PickQuorum(c: Crypto, s: Store, a: Attestation, domains: set<Bytes>, t: nat)
    returns (chosen: seq<RowKey>)
    requires StoreOk(c, s) && domains <= Domains(s.rows, a) && |domains| >= t
    ensures |chosen| == t && Quorum(s.rows, a, chosen)
    ensures forall i :: 0 <= i < t ==> s.rows[chosen[i]].domain in domains
  {
    if t == 0 {
      return [];
    }
    assert domains != {};
    var d :| d in domains;
    var k :| k in Matching(s.rows, a) && s.rows[k].domain == d;
    var others := PickQuorum(c, s, a, domains - {d}, t - 1);
    forall i | 0 <= i < t - 1 ensures s.rows[others[i]].key != s.rows[k].key {
      if s.rows[others[i]].key == s.rows[k].key {
        SameKeySameDomain(c, s, others[i], k);
      }
    }
    chosen := others + [k];
  }

  lemma QuorumSizes(rows: map<RowKey, Row>, a: Attestation, chosen: seq<RowKey>)
    requires Quorum(rows, a, chosen)
    ensures |chosen| <= |Keys(rows, a)| && |chosen| <= |Domains(rows, a)|
  {
    var keys := seq(|chosen|, i requires 0 <= i < |chosen| => rows[chosen[i]].key);
    var domains := seq(|chosen|, i requires 0 <= i < |chosen| => rows[chosen[i]].domain);
    DistinctSize(keys);
    DistinctSize(domains);
    SubsetCount(Elements(keys), Keys(rows, a));
    SubsetCount(Elements(domains), Domains(rows, a));
  }

  /** The two counts reach the threshold exactly when that many stored attestations, pairwise distinct in key and in
      failure domain, exist. */
  lemma CountsMeanQuorum(c: Crypto, s: Store, a: Attestation, t: nat)
    requires StoreOk(c, s)
    ensures |Keys(s.rows, a)| >= t && |Domains(s.rows, a)| >= t <==>
              exists chosen :: |chosen| == t && Quorum(s.rows, a, chosen)
  {
    if |Keys(s.rows, a)| >= t && |Domains(s.rows, a)| >= t {
      var chosen := PickQuorum(c, s, a, Domains(s.rows, a), t);
    }
    if chosen :| |chosen| == t && Quorum(s.rows, a, chosen) {
      QuorumSizes(s.rows, a, chosen);
    }
  }

  lemma GreenlightIs(c: Crypto, s: Store, d: Deliveries, coin: Bytes32, sequence: u64, index: u64, threshold: u16)
    requires ProductionGreenlight(c, s, d, coin, sequence, index, threshold).Success?
    ensures var g := ProductionGreenlight(c, s, d, coin, sequence, index, threshold).value;
            g.ready <==> && g.merchantDelivered && |Keys(s.rows, g.attestation)| >= threshold
                         && |Domains(s.rows, g.attestation)| >= threshold
  {
  }

  /** A greenlight is on exactly when the merchant has confirmed and a quorum of the threshold's size has attested the
      very hashes in the report. */
  lemma ReadyIffQuorum(c: Crypto, s: Store, d: Deliveries, coin: Bytes32, sequence: u64, index: u64, threshold: u16)
    requires StoreOk(c, s) && ProductionGreenlight(c, s, d, coin, sequence, index, threshold).Success?
    ensures var g := ProductionGreenlight(c, s, d, coin, sequence, index, threshold).value;
            g.ready <==>
            g.merchantDelivered && exists chosen :: |chosen| == threshold && Quorum(s.rows, g.attestation, chosen)
  {
    GreenlightIs(c, s, d, coin, sequence, index, threshold);
    CountsMeanQuorum(c, s, ProductionGreenlight(c, s, d, coin, sequence, index, threshold).value.attestation,
                     threshold);
  }

  /** Every member of a quorum is a registered attester whose signature on the attestation verifies. */
  lemma QuorumIsSigned(c: Crypto, s: Store, a: Attestation, chosen: seq<RowKey>, i: nat)
    requires StoreOk(c, s) && Quorum(s.rows, a, chosen) && i < |chosen|
    ensures chosen[i].attesterId in s.attesters
    ensures VerifyHash(c, s.attesters[chosen[i].attesterId].key, AttestationHash(c, a),
                       s.rows[chosen[i]].signature).Pass?
  {
    assert RowOk(c, s, chosen[i]);
  }

  /** Ready for production is ready for the test, at the same threshold. */
  lemma ProductionImpliesTest(c: Crypto, s: Store, d: Deliveries, coin: Bytes32, sequence: u64, index: u64,
                              threshold: u16)
    ensures ProductionGreenlight(c, s, d, coin, sequence, index, threshold).Success? <==>
            TestGreenlight(c, s, d, coin, sequence, index, threshold).Success?
    ensures ProductionGreenlight(c, s, d, coin, sequence, index, threshold).Success?
            && ProductionGreenlight(c, s, d, coin, sequence, index, threshold).value.ready ==>
            TestGreenlight(c, s, d, coin, sequence, index, threshold).value.ready
  {
  }

  lemma MoreRowsMoreKeys(a: map<RowKey, Row>, b: map<RowKey, Row>, attestation: Attestation)
    requires forall k :: k in a ==> k in b && b[k] == a[k]
    ensures |Keys(a, attestation)| <= |Keys(b, attestation)| && |Domains(a, attestation)| <= |Domains(b, attestation)|
  {
    SubsetCount(Keys(a, attestation), Keys(b, attestation));
    SubsetCount(Domains(a, attestation), Domains(b, attestation));
  }

  /** The greenlight over a confirmation found, from the two counts. */
  lemma GreenlightOver(c: Crypto, s: Store, d: Deliveries, coin: Bytes32, sequence: u64, index: u64, threshold: u16,
                       k: DeliveryConfirmation, a: Attestation)
    requires 1 <= threshold <= 3 && FindConfirmation(c, d, coin, sequence, index) == Success(k)
    requires AttestationOf(c, coin, sequence, index, k) == Success(a)
    ensures var g := ProductionGreenlight(c, s, d, coin, sequence, index, threshold);
            if |Keys(s.rows, a)| >= 0x1_0000 then g == Failure(Corrupt("custody attester count"))
            else if |Domains(s.rows, a)| >= 0x1_0000 then g == Failure(Corrupt("custody failure domain count"))
            else g.Success? && g.value.attestation == a &&
                 (g.value.ready <==>
                  k in d.merchants && |Keys(s.rows, a)| >= threshold && |Domains(s.rows, a)| >= threshold)
  {
  }

  lemma CountIs(c: Crypto, s: Store, d: Deliveries, coin: Bytes32, sequence: u64, index: u64, threshold: u16)
    requires Count(c, s, d, coin, sequence, index, threshold).Success?
    ensures 1 <= threshold <= 3 && FindConfirmation(c, d, coin, sequence, index).Success?
    ensures var k := FindConfirmation(c, d, coin, sequence, index).value;
            && AttestationOf(c, coin, sequence, index, k).Success?
            && Count(c, s, d, coin, sequence, index, threshold) ==
               CountRows(s.rows, AttestationOf(c, coin, sequence, index, k).value, k in d.merchants)
  {
  }

  /** Keys decide failure domains, so there are never more domains than keys. */
  lemma NoMoreDomainsThanKeys(c: Crypto, s: Store, a: Attestation)
    requires StoreOk(c, s)
    ensures |Domains(s.rows, a)| <= |Keys(s.rows, a)|
  {
    var chosen := PickQuorum(c, s, a, Domains(s.rows, a), |Domains(s.rows, a)|);
    QuorumSizes(s.rows, a, chosen);
  }

  /** Recording more attestations keeps a greenlight on if and only if the distinct keys still fit 16 bits. With one key
      more the status call fails, whatever the threshold. */
  lemma ReadinessIsMonotoneIff(c: Crypto, a: Store, b: Store, d: Deliveries, coin: Bytes32, sequence: u64, index: u64,
                               threshold: u16)
    requires Grows(a, b) && StoreOk(c, b)
    requires ProductionGreenlight(c, a, d, coin, sequence, index, threshold).Success?
    requires ProductionGreenlight(c, a, d, coin, sequence, index, threshold).value.ready
    ensures var attestation := ProductionGreenlight(c, a, d, coin, sequence, index, threshold).value.attestation;
            var later := ProductionGreenlight(c, b, d, coin, sequence, index, threshold);
            && (later.Success? && later.value.ready <==> |Keys(b.rows, attestation)| < 0x1_0000)
            && (|Keys(b.rows, attestation)| >= 0x1_0000 ==> later == Failure(Corrupt("custody attester count")))
  {
    CountIs(c, a, d, coin, sequence, index, threshold);
    var attestation := ProductionGreenlight(c, a, d, coin, sequence, index, threshold).value.attestation;
    var k := FindConfirmation(c, d, coin, sequence, index).value;
    GreenlightOver(c, a, d, coin, sequence, index, threshold, k, attestation);
    GreenlightOver(c, b, d, coin, sequence, index, threshold, k, attestation);
    MoreRowsMoreKeys(a.rows, b.rows, attestation);
    NoMoreDomainsThanKeys(c, b, attestation);
  }

  // ---------------------------------------------------------------- runs

  datatype Event =
    | Registers(id: Bytes, domain: Bytes, key: Bytes48, now: u64)
    | Records(signed: SignedAttestation, deliveries: Deliveries, now: u64)

  function Apply(c: Crypto, s: Store, event: Event): Store {
    match event
    case Registers(id, domain, key, now) =>
      var after := RegisterAttester(c, s, id, domain, key, now);
      if after.Success? then after.value else s
    case Records(signed, deliveries, now) =>
      var after := RecordAttestation(c, s, deliveries, signed, now);
      if after.Success? then after.value else s
  }

  function Run(c: Crypto, s: Store, events: seq<Event>): Store {
    if events == [] then s else Apply(c, Run(c, s, events[..|events| - 1]), events[|events| - 1])
  }

  /** Every run of registrations and recordings keeps the store well-formed and only adds to it. */
  lemma {:induction false} RunKeeps(c: Crypto, s: Store, events: seq<Event>)
    requires StoreOk(c, s)
    ensures StoreOk(c, Run(c, s, events)) && Grows(s, Run(c, s, events))
  {
    if events != [] {
      var before, event := Run(c, s, events[..|events| - 1]), events[|events| - 1];
      RunKeeps(c, s, events[..|events| - 1]);
      match event
      case Registers(id, domain, key, now) =>
        if RegisterAttester(c, before, id, domain, key, now).Success? {
          RegistrationKeeps(c, before, id, domain, key, now);
        }
      case Records(signed, deliveries, now) =>
        if RecordAttestation(c, before, deliveries, signed, now).Success? {
          RecordingKeeps(c, before, deliveries, signed, now);
        }
    }
  }

  // ---------------------------------------------------------------- the store

  class CustodyStore {
    const c: Crypto
    var attesters: map<Bytes, Attester>
    var rows: map<RowKey, Row>

    ghost function Contents(): Store
      reads this
    {
      Store(attesters, rows)
    }

    constructor (c: Crypto)
      ensures this.c == c && Contents() == Store(map[], map[])
    {
      this.c := c;
      attesters, rows := map[], map[];
    }

    method RegisterCustodyAttester(id: Bytes, domain: Bytes, key: Bytes48, now: u64) returns (r: Outcome<CustodyError>)
      modifies this`attesters
      ensures var after := RegisterAttester(c, old(Contents()), id, domain, key, now);
              if after.Failure? then r == Fail(after.error) && Contents() == old(Contents())
              else r == Pass && Contents() == after.value
    {
      if !ValidName(c, id) || !ValidName(c, domain) {
        return Fail(Invalid("attester name"));
      }
      var parsed := ParsePublicKey(c, key);
      if parsed.Fail? {
        return Fail(ProtocolFailure(parsed.error));
      }
      if KeyTaken(attesters, id, key) {
        return Fail(AttesterConflict);
      }
      if now > MAX_PROTOCOL_U64 {
        return Fail(Invalid("u64 exceeds SQLite range"));
      }
      if id !in attesters {
        attesters := attesters[id := Attester(domain, key)];
      } else if attesters[id] != Attester(domain, key) {
        return Fail(AttesterConflict);
      }
      return Pass;
    }

    method RecordCustodyAttestation(signed: SignedAttestation, d: Deliveries, now: u64)
      returns (r: Outcome<CustodyError>)
      modifies this`rows
      ensures var after := RecordAttestation(c, old(Contents()), d, signed, now);
              if after.Failure? then r == Fail(after.error) && Contents() == old(Contents())
              else r == Pass && Contents() == after.value
    {
      r := CheckSigned(c, Store(attesters, rows), d, signed);
      if r.Fail? {
        return;
      }
      var k := KeyOf(signed);
      if k.sequence > MAX_PROTOCOL_U64 || k.entryIndex > MAX_PROTOCOL_U64 || now > MAX_PROTOCOL_U64 {
        return Fail(Invalid("u64 exceeds SQLite range"));
      }
      if k in rows {
        if rows[k].attestation != signed.attestation || rows[k].signature != signed.signature {
          return Fail(DuplicateAttester);
        }
      } else if k.sequence == 0 || RowKeyTaken(rows, k, signed.key) {
        return Fail(Database("no row for this attester"));
      } else {
        rows := rows[k := Row(signed.attestation, signed.domain, signed.key, signed.signature)];
      }
    }
  }
}
