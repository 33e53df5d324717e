/** What custody takes in and reports: what an attestation attests, when one is stored, and what a greenlight says. */
module CustodyRecords {
  import opened ByteStrings
  import opened Protocol
  import opened Types
  import opened Packages
  import opened Watchtower
  import opened Custody
  import opened Layout

  // ---------------------------------------------------------------- what is attested

  /** What a merchant confirms of entry `index` of a package: its network, its coin and terms, its state and hash, the
      entry's authorization, and the package's own bytes. */
  predicate Confirms(c: Crypto, p: RecoveryPackage, index: u64, k: DeliveryConfirmation)
    requires index < |p.entries| && Encodable(p)
  {
    var checkpoint := p.officialState.checkpoint;
    && k.networkId == p.channelTerms.networkId && k.fundingCoinId == p.fundingCoinId
    && k.channelTermsHash == TermsDigest(c, p.channelTerms)
    && k.stateSequence == checkpoint.stateSequence
    && k.checkpointHash == CheckpointDigest(c, p.channelTerms, checkpoint)
    && k.entryIndex == index
    && k.authorizationHash == AuthorizationDigest(c, p.channelTerms, p.fundingCoinId, p.entries[index])
    && k.recoveryPackageContentHash == c.sha256(Ascii("XHUB_RECOVERY_PACKAGE_V3_6") + EncodePackage(p))
  }

  /** What an attester attests: the hashes of that confirmation, and the hash of the confirmation itself. */
  predicate Attests(c: Crypto, coin: Bytes32, sequence: u64, index: u64, k: DeliveryConfirmation, a: Attestation) {
    && a.fundingCoinId == coin && a.stateSequence == sequence && a.entryIndex == index
    && a.checkpointHash == k.checkpointHash && a.contentHash == k.recoveryPackageContentHash
    && a.authorizationHash == k.authorizationHash
    && a.deliveryHash == c.sha256(Ascii("XHUB_DELIVERY_CONFIRMATION_V3_6") + EncodeConfirmation(k))
  }

  /** A valid package is stored under this coin and sequence, and has this entry. */
  ghost predicate HasEntry(c: Crypto, d: Deliveries, coin: Bytes32, sequence: u64, index: u64) {
    && (coin, sequence) in d.packages && ValidPackage(c, d.packages[(coin, sequence)])
    && index < |d.packages[(coin, sequence)].entries|
  }

  lemma ConfirmationIff(c: Crypto, d: Deliveries, coin: Bytes32, sequence: u64, index: u64)
    ensures FindConfirmation(c, d, coin, sequence, index).Success? <==> HasEntry(c, d, coin, sequence, index)
    ensures HasEntry(c, d, coin, sequence, index) ==>
              && Encodable(d.packages[(coin, sequence)])
              && Confirms(c, d.packages[(coin, sequence)], index,
                          FindConfirmation(c, d, coin, sequence, index).value)
  {
    if (coin, sequence) in d.packages {
      PackageAcceptedIffValid(c, d.packages[(coin, sequence)]);
    }
  }

  lemma OneConfirmation(c: Crypto, p: RecoveryPackage, index: u64, k: DeliveryConfirmation, l: DeliveryConfirmation)
    requires index < |p.entries| && Encodable(p) && Confirms(c, p, index, k) && Confirms(c, p, index, l)
    ensures k == l
  {
  }

  lemma AttestationIs(c: Crypto, coin: Bytes32, sequence: u64, index: u64, k: DeliveryConfirmation)
    requires k.stateSequence <= MAX_PROTOCOL_U64 && k.entryIndex <= MAX_PROTOCOL_U64
    ensures AttestationOf(c, coin, sequence, index, k).Success?
    ensures Attests(c, coin, sequence, index, k, AttestationOf(c, coin, sequence, index, k).value)
  {
  }

  lemma ConfirmedFits(c: Crypto, p: RecoveryPackage, index: u64, k: DeliveryConfirmation)
    requires ValidPackage(c, p) && Encodable(p) && index < |p.entries| && Confirms(c, p, index, k)
    ensures k.stateSequence <= MAX_PROTOCOL_U64 && k.entryIndex <= MAX_PROTOCOL_U64
  {
    OfficialStateIsValid(c, p.channelTerms, p.officialState);
    CheckpointFacts(c, p.channelTerms, p.officialState.checkpoint);
  }

  lemma ExpectedCases(c: Crypto, d: Deliveries, coin: Bytes32, sequence: u64, index: u64, k: DeliveryConfirmation)
    requires FindConfirmation(c, d, coin, sequence, index) == Success(k)
    ensures ExpectedAttestation(c, d, coin, sequence, index) ==
            if k in d.merchants then AttestationOf(c, coin, sequence, index, k)
            else Failure(MerchantConfirmationRequired)
  {
  }

  /** There is something to attest exactly when the package is stored, is valid, has the entry, and its merchant has
      confirmed just that; and it is the hashes the merchant confirmed. */
  lemma ExpectedIff(c: Crypto, d: Deliveries, coin: Bytes32, sequence: u64, index: u64, k: DeliveryConfirmation)
    requires HasEntry(c, d, coin, sequence, index) && Encodable(d.packages[(coin, sequence)]) ==>
               Confirms(c, d.packages[(coin, sequence)], index, k)
    ensures ExpectedAttestation(c, d, coin, sequence, index).Success? <==>
            HasEntry(c, d, coin, sequence, index) && k in d.merchants
    ensures ExpectedAttestation(c, d, coin, sequence, index).Success? ==>
              Attests(c, coin, sequence, index, k, ExpectedAttestation(c, d, coin, sequence, index).value)
  {
    ConfirmationIff(c, d, coin, sequence, index);
    if HasEntry(c, d, coin, sequence, index) {
      var p := d.packages[(coin, sequence)];
      OneConfirmation(c, p, index, k, FindConfirmation(c, d, coin, sequence, index).value);
      ConfirmedFits(c, p, index, k);
      ExpectedCases(c, d, coin, sequence, index, k);
      AttestationIs(c, coin, sequence, index, k);
    }
  }

  /** The 178 bytes an attester signs, behind the tag. */
  predicate AttestationAt(b: Bytes, a: Attestation) {
    && |b| == 178 && NumberAt(b, 0, 2, 0x0360)
    && At(b, 2, a.fundingCoinId) && NumberAt(b, 34, 8, a.stateSequence) && At(b, 42, a.checkpointHash)
    && At(b, 74, a.contentHash) && NumberAt(b, 106, 8, a.entryIndex) && At(b, 114, a.authorizationHash)
    && At(b, 146, a.deliveryHash)
  }

  lemma AttestationLayout(a: Attestation)
    ensures AttestationAt(EncodeAttestation(a), a)
  {
    var b := EncodeAttestation(a);
    var r6 := a.authorizationHash + a.deliveryHash;
    var r5 := U64(a.entryIndex) + r6;
    var r4 := a.contentHash + r5;
    var r3 := a.checkpointHash + r4;
    var r2 := U64(a.stateSequence) + r3;
    var r1 := a.fundingCoinId + r2;
    Whole(b);
    PeelU16(b, 0, PROTOCOL_VERSION, r1);
    Peel(b, 2, a.fundingCoinId, r2);
    PeelU64(b, 34, a.stateSequence, r3);
    Peel(b, 42, a.checkpointHash, r4);
    Peel(b, 74, a.contentHash, r5);
    PeelU64(b, 106, a.entryIndex, r6);
    Peel(b, 114, a.authorizationHash, a.deliveryHash);
    Layout.Ends(a.deliveryHash);
    Peel(b, 146, a.deliveryHash, []);
  }

  // ---------------------------------------------------------------- what is stored

  /** An attester is registered, again or for the first time, exactly when its names and key are good and nobody else
      has its key, nor it another key or domain. */
  lemma RegisterSucceedsIff(c: Crypto, s: Store, id: Bytes, domain: Bytes, key: Bytes48, now: u64)
    ensures var r := RegisterAttester(c, s, id, domain, key, now);
            && (r.Success? <==>
                && ValidName(c, id) && ValidName(c, domain) && ParsePublicKey(c, key).Pass? && now <= MAX_PROTOCOL_U64
                && (forall other :: other in s.attesters && s.attesters[other].key == key ==> other == id)
                && (id in s.attesters ==> s.attesters[id] == Attester(domain, key)))
            && (r.Success? ==> r.value == s.(attesters := s.attesters[id := Attester(domain, key)]))
  {
  }

  /** An attestation signed by its registered attester, of exactly what is to be attested. */
  ghost predicate Acceptable(c: Crypto, s: Store, d: Deliveries, signed: SignedAttestation) {
    var a := signed.attestation;
    && ValidName(c, signed.attesterId) && signed.attesterId in s.attesters
    && s.attesters[signed.attesterId].domain == signed.domain && s.attesters[signed.attesterId].key == signed.key
    && VerifyHash(c, signed.key, c.sha256(Ascii("XHUB_WATCHTOWER_CUSTODY_ATTESTATION_V3_6") + EncodeAttestation(a)),
                  signed.signature).Pass?
    && ExpectedAttestation(c, d, a.fundingCoinId, a.stateSequence, a.entryIndex) == Success(a)
  }

  lemma CheckedIff(c: Crypto, s: Store, d: Deliveries, signed: SignedAttestation)
    ensures CheckSigned(c, s, d, signed).Pass? <==> Acceptable(c, s, d, signed)
  {
  }

  /** An attestation is recorded exactly when it is acceptable, its numbers fit, its state is not state zero, and its
      attester has not attested the entry otherwise; a first one adds its row, a repeated one changes nothing. */
  lemma RecordSucceedsIff(c: Crypto, s: Store, d: Deliveries, signed: SignedAttestation, now: u64)
    requires StoreOk(c, s)
    ensures var r, k := RecordAttestation(c, s, d, signed, now), KeyOf(signed);
            && (r.Success? <==>
                && Acceptable(c, s, d, signed)
                && k.sequence <= MAX_PROTOCOL_U64 && k.entryIndex <= MAX_PROTOCOL_U64 && now <= MAX_PROTOCOL_U64
                && (if k in s.rows
                    then s.rows[k].attestation == signed.attestation && s.rows[k].signature == signed.signature
                    else k.sequence > 0))
            && (r.Success? && k in s.rows ==> r.value == s)
            && (r.Success? && k !in s.rows ==>
                  r.value == Store(s.attesters, s.rows[k := Row(signed.attestation, signed.domain, signed.key,
                                                                signed.signature)]))
  {
    CheckedIff(c, s, d, signed);
    if CheckSigned(c, s, d, signed).Pass? {
      KeyTakenIff(c, s, d, signed);
    }
  }

  // ---------------------------------------------------------------- what is reported

  /** A greenlight repeats what was asked and what was counted. */
  predicate Reports(rows: map<RowKey, Row>, a: Attestation, delivered: bool, threshold: u16, g: Greenlight) {
    && g.attestation == a && g.merchantDelivered == delivered && g.threshold == threshold
    && g.attesterCount == |Keys(rows, a)| && g.domainCount == |Domains(rows, a)|
  }

  lemma CountCases(c: Crypto, s: Store, d: Deliveries, coin: Bytes32, sequence: u64, index: u64, threshold: u16,
                   k: DeliveryConfirmation, a: Attestation)
    requires FindConfirmation(c, d, coin, sequence, index) == Success(k)
    requires AttestationOf(c, coin, sequence, index, k) == Success(a)
    ensures Count(c, s, d, coin, sequence, index, threshold) ==
            if !(1 <= threshold <= 3) then Failure(CustodyError.Invalid("custody threshold must be 1, 2, or 3"))
            else CountRows(s.rows, a, k in d.merchants)
  {
  }

  /** Both greenlights are reported exactly when the entry is there, the threshold is one to three and the distinct keys
      fit 16 bits. The test's is on when the merchant has confirmed and the keys reach the threshold; production's when
      the failure domains do too. */
  lemma GreenlightsSay(c: Crypto, s: Store, d: Deliveries, coin: Bytes32, sequence: u64, index: u64, threshold: u16,
                       k: DeliveryConfirmation, a: Attestation)
    requires StoreOk(c, s)
    requires HasEntry(c, d, coin, sequence, index) && Encodable(d.packages[(coin, sequence)]) ==>
               Confirms(c, d.packages[(coin, sequence)], index, k) && Attests(c, coin, sequence, index, k, a)
    ensures var test, production := TestGreenlight(c, s, d, coin, sequence, index, threshold),
                                    ProductionGreenlight(c, s, d, coin, sequence, index, threshold);
            && (test.Success? <==>
                HasEntry(c, d, coin, sequence, index) && 1 <= threshold <= 3 && |Keys(s.rows, a)| < 0x1_0000)
            && (production.Success? <==> test.Success?)
            && (test.Success? ==>
                  && Reports(s.rows, a, k in d.merchants, threshold, test.value)
                  && Reports(s.rows, a, k in d.merchants, threshold, production.value)
                  && (test.value.ready <==> k in d.merchants && |Keys(s.rows, a)| >= threshold)
                  && (production.value.ready <==> test.value.ready && |Domains(s.rows, a)| >= threshold))
  {
    ConfirmationIff(c, d, coin, sequence, index);
    if HasEntry(c, d, coin, sequence, index) {
      var p := d.packages[(coin, sequence)];
      OneConfirmation(c, p, index, k, FindConfirmation(c, d, coin, sequence, index).value);
      ConfirmedFits(c, p, index, k);
      AttestationIs(c, coin, sequence, index, k);
      CountCases(c, s, d, coin, sequence, index, threshold, k, a);
      NoMoreDomainsThanKeys(c, s, a);
    }
  }
}
