/** The shape of every reachable channel: its states, its ledger, its money and its heights. */
module HubHistory {
  import opened ByteStrings
  import opened Protocol
  import opened Types
  import opened Ledgers
  import opened Packages
  import opened HubRecords
  import opened HubGate
  import opened HubInvariant
  import opened HubProgress
  import opened HubRuns
  import opened HubMachine
  import opened HubTheorems

  lemma Reachable(c: Crypto, events: seq<Event>, coin: Bytes32)
    requires coin in Run(c, events).db
    ensures ChannelOk(c, coin, Run(c, events).db[coin])
  {
    RunOk(c, events);
  }

  // ---------------------------------------------------------------- states

  /** State `k` exists exactly for `1 <= k <= n`, and is linked to the one before it. */
  lemma StateLink(c: Crypto, coin: Bytes32, ch: Channel, k: u64)
    requires ChannelOk(c, coin, ch)
    ensures k in ch.states <==> 1 <= k <= |ch.ledger|
    ensures k > 1 && k in ch.states ==> (k - 1) as u64 in ch.states
    ensures k in ch.states ==>
              var s := ch.states[k];
              && s.officialState.checkpoint.stateSequence == k
              && s.checkpointHash == CheckpointDigest(c, ch.row.terms, s.officialState.checkpoint)
              && s.officialState.checkpoint.previousCheckpointHash ==
                 (if k == 1 then StateZeroDigest(c, ch.row.terms, coin) else ch.states[k - 1].checkpointHash)
              && VerifyOfficialState(c, ch.row.terms, s.officialState).Pass?
  {
    assert k in ch.states.Keys <==> 1 <= k <= |ch.ledger|;
    if k in ch.states {
      assert k > 1 ==> (k - 1) as u64 in ch.states.Keys;
      assert k == 1 ==> 0 as u64 !in ch.states.Keys;
      assert StateOk(c, IdentityOf(coin, ch.row), ch.states, ch.ledger, k);
    }
  }

  /** In every reachable channel the states are numbered from one to the number of ledger entries, at most 64, without
      gaps; each verifies, and each is hash-linked to the one before and the first to state zero. */
  lemma StatesAreLinked(c: Crypto, events: seq<Event>, coin: Bytes32, k: u64)
    requires coin in Run(c, events).db
    ensures var ch := Run(c, events).db[coin];
            && ch.row.latestSequence == |ch.ledger| <= 64
            && (k in ch.states <==> 1 <= k <= |ch.ledger|)
            && (k > 1 && k in ch.states ==> (k - 1) as u64 in ch.states)
            && (k in ch.states ==>
                  var s := ch.states[k];
                  && s.officialState.checkpoint.stateSequence == k
                  && s.checkpointHash == CheckpointDigest(c, ch.row.terms, s.officialState.checkpoint)
                  && s.officialState.checkpoint.previousCheckpointHash ==
                     (if k == 1 then StateZeroDigest(c, ch.row.terms, coin) else ch.states[k - 1].checkpointHash)
                  && VerifyOfficialState(c, ch.row.terms, s.officialState).Pass?)
  {
    Reachable(c, events, coin);
    StateLink(c, coin, Run(c, events).db[coin], k);
  }

  // ---------------------------------------------------------------- intents

  /** Where an intent stands: the head's prepared successor, or the state it became. */
  ghost predicate Placed(ch: Channel, k: u64) {
    && k in ch.intents
    && (ch.intents[k].stage.Prepared? <==> k == ch.row.latestSequence + 1)
    && (ch.intents[k].stage.Prepared? ==> ch.intents[k].previousCheckpointHash == ch.row.latestCheckpointHash)
    && (ch.intents[k].stage.Signed? ==>
          k in ch.states && ch.states[k].officialState.checkpoint == ch.intents[k].checkpoint)
  }

  lemma IntentPlace(c: Crypto, id: Identity, ch: Channel, k: u64)
    requires k in ch.intents && IntentOk(c, id, ch.intents, ch.states, ch.ledger, ch.reservations, k)
    requires HeadOk(c, id, ch.row, ch.states, ch.ledger)
    ensures Placed(ch, k)
  {
  }

  /** At most one intent is prepared, always the head's successor; every other is the state it became. */
  lemma PreparedIntentIsNext(c: Crypto, events: seq<Event>, coin: Bytes32, k: u64)
    requires coin in Run(c, events).db && k in Run(c, events).db[coin].intents
    ensures Placed(Run(c, events).db[coin], k)
  {
    var ch := Run(c, events).db[coin];
    Reachable(c, events, coin);
    HeadParts(c, coin, ch);
    assert IntentOk(c, IdentityOf(coin, ch.row), ch.intents, ch.states, ch.ledger, ch.reservations, k);
    IntentPlace(c, IdentityOf(coin, ch.row), ch, k);
  }

  lemma HeadParts(c: Crypto, coin: Bytes32, ch: Channel)
    requires ChannelOk(c, coin, ch)
    ensures HeadOk(c, IdentityOf(coin, ch.row), ch.row, ch.states, ch.ledger)
    ensures StatesOk(c, IdentityOf(coin, ch.row), ch.states, ch.ledger)
    ensures IntentsOk(c, IdentityOf(coin, ch.row), ch.intents, ch.states, ch.ledger, ch.reservations)
  {
  }

  // ---------------------------------------------------------------- packages

  /** State `k` carries a valid package of the first `k` entries and signatures. */
  ghost predicate CarriesPrefix(c: Crypto, ch: Channel, k: u64) {
    && k in ch.states && 1 <= k <= |ch.ledger|
    && (var p := ch.states[k].recoveryPackage;
        && ValidPackage(c, p)
        && p.entries == Entries(ch.ledger)[..k]
        && p.userAuthorizationSignatures == Signatures(ch.ledger)[..k]
        && p.officialState == ch.states[k].officialState && p.channelTerms == ch.row.terms)
  }

  lemma PrefixColumns(ledger: seq<LedgerRow>, k: nat)
    requires k <= |ledger|
    ensures Entries(ledger[..k]) == Entries(ledger)[..k] && Signatures(ledger[..k]) == Signatures(ledger)[..k]
  {
  }

  lemma StateCarriesPrefix(c: Crypto, id: Identity, ch: Channel, k: u64)
    requires k in ch.states && 1 <= k <= |ch.ledger| && id.terms == ch.row.terms
    requires StateOk(c, id, ch.states, ch.ledger, k)
    ensures CarriesPrefix(c, ch, k)
  {
    PrefixColumns(ch.ledger, k);
  }

  lemma PackageAt(c: Crypto, coin: Bytes32, ch: Channel, k: u64)
    requires ChannelOk(c, coin, ch) && k in ch.states
    ensures CarriesPrefix(c, ch, k)
  {
    HeadParts(c, coin, ch);
    assert k in ch.states.Keys;
    assert StateOk(c, IdentityOf(coin, ch.row), ch.states, ch.ledger, k);
    StateCarriesPrefix(c, IdentityOf(coin, ch.row), ch, k);
  }

  /** Two packages, the earlier one's entries and signatures a prefix of the later one's. */
  ghost predicate PrefixOf(p: RecoveryPackage, q: RecoveryPackage) {
    && |p.entries| <= |q.entries| && q.entries[..|p.entries|] == p.entries
    && |p.userAuthorizationSignatures| <= |q.userAuthorizationSignatures|
    && q.userAuthorizationSignatures[..|p.userAuthorizationSignatures|] == p.userAuthorizationSignatures
  }

  lemma PrefixOfPrefix<T>(s: seq<T>, m: nat, n: nat)
    requires m <= n <= |s|
    ensures |s[..m]| == m && |s[..n]| == n && s[..n][..m] == s[..m]
  {
  }

  lemma SlicesArePrefixes(p: RecoveryPackage, q: RecoveryPackage, entries: seq<LedgerEntry>, signatures: seq<Bytes96>,
                          m: nat, n: nat)
    requires m <= n <= |entries| == |signatures|
    requires p.entries == entries[..m] && q.entries == entries[..n]
    requires p.userAuthorizationSignatures == signatures[..m] && q.userAuthorizationSignatures == signatures[..n]
    ensures PrefixOf(p, q)
  {
    PrefixOfPrefix(entries, m, n);
    PrefixOfPrefix(signatures, m, n);
  }

  lemma CarriedPrefixes(c: Crypto, ch: Channel, m: u64, n: u64)
    requires CarriesPrefix(c, ch, m) && CarriesPrefix(c, ch, n) && m <= n
    ensures PrefixOf(ch.states[m].recoveryPackage, ch.states[n].recoveryPackage)
  {
    SlicesArePrefixes(ch.states[m].recoveryPackage, ch.states[n].recoveryPackage, Entries(ch.ledger),
                      Signatures(ch.ledger), m, n);
  }

  /** Every stored package is valid, and an earlier one is a prefix of a later one. */
  lemma PackagesArePrefixes(c: Crypto, events: seq<Event>, coin: Bytes32, m: u64, n: u64)
    requires coin in Run(c, events).db && m <= n
    requires m in Run(c, events).db[coin].states && n in Run(c, events).db[coin].states
    ensures CarriesPrefix(c, Run(c, events).db[coin], m) && CarriesPrefix(c, Run(c, events).db[coin], n)
    ensures PrefixOf(Run(c, events).db[coin].states[m].recoveryPackage,
                     Run(c, events).db[coin].states[n].recoveryPackage)
  {
    var ch := Run(c, events).db[coin];
    Reachable(c, events, coin);
    PackageAt(c, coin, ch, m);
    PackageAt(c, coin, ch, n);
    CarriedPrefixes(c, ch, m, n);
  }

  // ---------------------------------------------------------------- conservation

  lemma {:induction false} TotalOfPrefix(entries: seq<LedgerEntry>, k: nat)
    requires k < |entries|
    ensures Total(entries[..k + 1]) == Total(entries[..k]) + entries[k].amount
  {
    assert Front(entries[..k + 1]) == entries[..k];
  }

  lemma PackageTotals(c: Crypto, p: RecoveryPackage)
    requires ValidPackage(c, p)
    ensures p.officialState.checkpoint.reservedTotal == Total(p.entries)
    ensures p.officialState.checkpoint.reservedTotal + p.officialState.checkpoint.userRemainder
            == p.channelTerms.fundingAmount
  {
  }

  /** Every state conserves the funding, and each leaves the user exactly the amount of its own entry less than the
      state before. */
  lemma FundingIsConserved(c: Crypto, events: seq<Event>, coin: Bytes32, k: u64)
    requires coin in Run(c, events).db && k in Run(c, events).db[coin].states
    ensures k >= 1 && k <= |Run(c, events).db[coin].ledger|
    ensures k > 1 ==> (k - 1) as u64 in Run(c, events).db[coin].states
    ensures var ch := Run(c, events).db[coin];
            var now := ch.states[k].officialState.checkpoint;
            && now.reservedTotal + now.userRemainder == ch.row.terms.fundingAmount
            && now.userRemainder + ch.ledger[k - 1].entry.amount ==
               (if k == 1 then ch.row.terms.fundingAmount else ch.states[k - 1].officialState.checkpoint.userRemainder)
  {
    var ch := Run(c, events).db[coin];
    Reachable(c, events, coin);
    StateLink(c, coin, ch, k);
    PackageAt(c, coin, ch, k);
    PackageTotals(c, ch.states[k].recoveryPackage);
    TotalOfPrefix(Entries(ch.ledger), k - 1);
    if k > 1 {
      PackageAt(c, coin, ch, k - 1);
      PackageTotals(c, ch.states[k - 1].recoveryPackage);
    }
  }

  // ---------------------------------------------------------------- one signed reservation per entry

  ghost function SignedNonces(ch: Channel): set<Bytes32> {
    set m | m in ch.reservations && IsSignedTarget(ch.reservations[m]) && ch.reservations[m].stage.Signed?
  }

  lemma {:induction false} NonceCount(entries: seq<LedgerEntry>)
    requires DistinctNonces(entries)
    ensures |Nonces(entries)| == |entries|
  {
    if entries != [] {
      var last := |entries| - 1;
      NonceCount(Front(entries));
      NoncesGrow(entries, last);
      assert entries[..last + 1] == entries;
      assert forall i :: 0 <= i < last ==> entries[i].reservationNonce != entries[last].reservationNonce;
    }
  }

  lemma SignedNonceInLedger(c: Crypto, id: Identity, ch: Channel, m: Bytes32)
    requires ReservationsOk(c, id, ch.reservations, ch.intents, ch.ledger) && m in SignedNonces(ch)
    ensures m in Nonces(Entries(ch.ledger))
  {
    var r := ch.reservations[m];
    assert ReservationOk(c, id, ch.reservations[m], m, ch.intents, ch.ledger);
    var k := r.targetStateSequence.value;
    assert Entries(ch.ledger)[k - 1].reservationNonce == m;
  }

  lemma CommittedIsSigned(c: Crypto, id: Identity, r: Reservation, m: Bytes32, intents: map<u64, Intent>,
                          ledger: seq<LedgerRow>, k: u64)
    requires ReservationOk(c, id, r, m, intents, ledger) && IsSignedTarget(r)
    requires r.targetStateSequence == Some(k) && k <= |ledger|
    ensures r.stage.Signed?
  {
  }

  lemma CommittedIntent(c: Crypto, id: Identity, intents: map<u64, Intent>, states: map<u64, StateRow>,
                        ledger: seq<LedgerRow>, reservations: map<Bytes32, Reservation>, k: u64)
    requires IntentsOk(c, id, intents, states, ledger, reservations) && 1 <= k <= |ledger|
    ensures k in intents && intents[k].reservationNonce == ledger[k - 1].reservationNonce
    ensures intents[k].reservationNonce in reservations && IsSignedTarget(reservations[intents[k].reservationNonce])
    ensures reservations[intents[k].reservationNonce].targetStateSequence == Some(k)
  {
    assert IntentOk(c, id, intents, states, ledger, reservations, k);
  }

  lemma EntryNonceAt(c: Crypto, id: Identity, ledger: seq<LedgerRow>, i: nat)
    requires LedgerOk(c, id, ledger) && i < |ledger|
    ensures Entries(ledger)[i].reservationNonce == ledger[i].reservationNonce
  {
  }

  lemma SignedIsCounted(ch: Channel, m: Bytes32)
    requires m in ch.reservations && IsSignedTarget(ch.reservations[m]) && ch.reservations[m].stage.Signed?
    ensures m in SignedNonces(ch)
  {
  }

  lemma LedgerNonceIsSigned(c: Crypto, id: Identity, ch: Channel, i: nat)
    requires ReservationsOk(c, id, ch.reservations, ch.intents, ch.ledger) && LedgerOk(c, id, ch.ledger)
    requires IntentsOk(c, id, ch.intents, ch.states, ch.ledger, ch.reservations) && i < |ch.ledger|
    ensures Entries(ch.ledger)[i].reservationNonce in SignedNonces(ch)
  {
    var k: u64 := i + 1;
    CommittedIntent(c, id, ch.intents, ch.states, ch.ledger, ch.reservations, k);
    var m := ch.intents[k].reservationNonce;
    assert ReservationOk(c, id, ch.reservations[m], m, ch.intents, ch.ledger);
    CommittedIsSigned(c, id, ch.reservations[m], m, ch.intents, ch.ledger, k);
    EntryNonceAt(c, id, ch.ledger, i);
    SignedIsCounted(ch, m);
  }

  /** In every reachable channel there are as many signed acceptances as ledger entries: they have the same nonces. */
  lemma SignedReservationsAreTheLedger(c: Crypto, events: seq<Event>, coin: Bytes32)
    requires coin in Run(c, events).db
    ensures SignedNonces(Run(c, events).db[coin]) == Nonces(Entries(Run(c, events).db[coin].ledger))
    ensures |SignedNonces(Run(c, events).db[coin])| == |Run(c, events).db[coin].ledger|
  {
    Reachable(c, events, coin);
    LedgerIsSigned(c, coin, Run(c, events).db[coin]);
  }

  lemma LedgerIsSigned(c: Crypto, coin: Bytes32, ch: Channel)
    requires ChannelOk(c, coin, ch)
    ensures SignedNonces(ch) == Nonces(Entries(ch.ledger)) && |SignedNonces(ch)| == |ch.ledger|
  {
    var id, entries := IdentityOf(coin, ch.row), Entries(ch.ledger);
    ChannelParts(c, coin, ch);
    forall m | m in SignedNonces(ch) ensures m in Nonces(entries) {
      SignedNonceInLedger(c, id, ch, m);
    }
    forall m | m in Nonces(entries) ensures m in SignedNonces(ch) {
      var i :| 0 <= i < |entries| && entries[i].reservationNonce == m;
      LedgerNonceIsSigned(c, id, ch, i);
    }
    NonceCount(entries);
  }

  // ---------------------------------------------------------------- heights

  /** Every accepted reservation was observed before its recorded cutoff, with the whole freeze left before its
      recorded close. */
  lemma AcceptedBeforeFreeze(c: Crypto, events: seq<Event>, coin: Bytes32, nonce: Bytes32)
    requires coin in Run(c, events).db && nonce in Run(c, events).db[coin].reservations
    requires IsSignedTarget(Run(c, events).db[coin].reservations[nonce])
    ensures var ch, r := Run(c, events).db[coin], Run(c, events).db[coin].reservations[nonce];
            && r.observedPeakHeight < r.acceptanceCutoffHeight
            && r.observedPeakHeight + ch.row.terms.freezeBlocks < r.scheduledCloseHeight
  {
    var ch := Run(c, events).db[coin];
    Reachable(c, events, coin);
    assert ReservationOk(c, IdentityOf(coin, ch.row), ch.reservations[nonce], nonce, ch.intents, ch.ledger);
  }

  /** Once a channel is activated it stays activated, and its acceptance cutoff never rises again. */
  lemma CutoffNeverRises(c: Crypto, events: seq<Event>, more: seq<Event>, coin: Bytes32)
    requires coin in Run(c, events).db
    ensures coin in Run(c, events + more).db
    ensures CutoffKept(Run(c, events).db[coin].row, Run(c, events + more).db[coin].row)
  {
    RunContinues(c, events, more);
    assert Extended(Run(c, events).db[coin], Run(c, events + more).db[coin]);
  }
}
