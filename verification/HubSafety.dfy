/** Every step keeps the channel invariant. */
module HubSafety {
  import opened ByteStrings
  import opened Protocol
  import opened Types
  import opened Ledgers
  import opened Packages
  import opened HubRecords
  import opened HubGate
  import opened HubSteps
  import opened HubInvariant

  // ---------------------------------------------------------------- a new channel

  lemma NewChannelOk(c: Crypto, coin: Bytes32, row: ChannelRow)
    requires RowBound(c, coin, row)
    requires row.latestSequence == 0 && row.latestCheckpointHash == StateZeroDigest(c, row.terms, coin)
    ensures ChannelOk(c, coin, Channel(row, map[], map[], [], map[]))
  {
    TermsFacts(c, row.terms);
    assert Entries([]) == [] && Signatures([]) == [];
  }

  // ---------------------------------------------------------------- a reservation row is added or updated

  /** The columns an intent relies on. */
  predicate SameTarget(a: Reservation, b: Reservation) {
    && a.entry == b.entry && a.targetStatus == b.targetStatus && a.targetStateSequence == b.targetStateSequence
    && a.observedPeakHeight == b.observedPeakHeight
  }

  /** Intents do not notice a row for a nonce that had none, nor an update that keeps the target. */
  lemma IntentsKept(c: Crypto, id: Identity, intents: map<u64, Intent>, states: map<u64, StateRow>,
                    ledger: seq<LedgerRow>, reservations: map<Bytes32, Reservation>, nonce: Bytes32, r: Reservation)
    requires IntentsOk(c, id, intents, states, ledger, reservations)
    requires nonce in reservations ==> SameTarget(reservations[nonce], r)
    ensures IntentsOk(c, id, intents, states, ledger, reservations[nonce := r])
  {
    forall k: u64 | k in intents ensures IntentOk(c, id, intents, states, ledger, reservations[nonce := r], k) {
      assert IntentOk(c, id, intents, states, ledger, reservations, k);
    }
  }

  lemma ReservationsTake(c: Crypto, id: Identity, reservations: map<Bytes32, Reservation>, intents: map<u64, Intent>,
                         ledger: seq<LedgerRow>, nonce: Bytes32, r: Reservation)
    requires ReservationsOk(c, id, reservations, intents, ledger)
    requires ReservationOk(c, id, r, nonce, intents, ledger)
    ensures ReservationsOk(c, id, reservations[nonce := r], intents, ledger)
  {
    var updated := reservations[nonce := r];
    forall m | m in updated ensures ReservationOk(c, id, updated[m], m, intents, ledger) {
      assert m != nonce ==> ReservationOk(c, id, reservations[m], m, intents, ledger);
    }
  }

  /** A channel stays well-formed when its gate fields and one reservation row change. */
  lemma RowWritten(c: Crypto, coin: Bytes32, ch: Channel, row: ChannelRow, nonce: Bytes32, r: Reservation)
    requires ChannelOk(c, coin, ch) && SameIdentity(ch.row, row)
    requires nonce in ch.reservations ==> SameTarget(ch.reservations[nonce], r)
    requires ReservationOk(c, IdentityOf(coin, row), r, nonce, ch.intents, ch.ledger)
    ensures ChannelOk(c, coin, ch.(row := row, reservations := ch.reservations[nonce := r]))
  {
    var id := IdentityOf(coin, row);
    IntentsKept(c, id, ch.intents, ch.states, ch.ledger, ch.reservations, nonce, r);
    ReservationsTake(c, id, ch.reservations, ch.intents, ch.ledger, nonce, r);
  }

  // ---------------------------------------------------------------- an acceptance is prepared

  /** What the preparing transaction has established about an acceptance it is about to write. */
  ghost predicate Acceptable(c: Crypto, id: Identity, ch: Channel, nonce: Bytes32, r: Reservation, i: Intent) {
    && RowOk(c, id, r, nonce)
    && r.stage.Prepared? && IsSignedTarget(r) && HasTargets(r)
    && r.targetStateSequence.value == |ch.ledger| + 1
    && r.targetCheckpointHash.value == i.checkpointHash
    && r.entryIndex.value == |ch.ledger|
    && VerifyAuthorization(c, id.terms, id.coin, r.entry, r.signature).Pass?
    && r.observedPeakHeight < r.acceptanceCutoffHeight
    && r.observedPeakHeight + id.terms.freezeBlocks < r.scheduledCloseHeight
    && i.reservationNonce == nonce
    && i.commitHeight == r.observedPeakHeight
    && i.previousCheckpointHash == i.checkpoint.previousCheckpointHash
    && i.checkpointHash == CheckpointDigest(c, id.terms, i.checkpoint)
    && PreparedIntent(c, id, i, HashAt(c, id, ch.states, |ch.ledger|), ch.ledger, r)
  }

  lemma IntentsTake(c: Crypto, id: Identity, intents: map<u64, Intent>, states: map<u64, StateRow>,
                    ledger: seq<LedgerRow>, reservations: map<Bytes32, Reservation>, n: u64, i: Intent)
    requires IntentsOk(c, id, intents, states, ledger, reservations)
    requires n !in intents && IntentOk(c, id, intents[n := i], states, ledger, reservations, n)
    requires forall j :: j in intents ==> intents[j].checkpointHash != i.checkpointHash
    ensures IntentsOk(c, id, intents[n := i], states, ledger, reservations)
  {
    var updated := intents[n := i];
    forall k: u64 | k in updated ensures IntentOk(c, id, updated, states, ledger, reservations, k) {
      if k != n {
        assert IntentOk(c, id, intents, states, ledger, reservations, k);
      }
    }
  }

  /** No accepted row targets a sequence that has no intent, so a new intent disturbs none. */
  lemma ReservationsKept(c: Crypto, id: Identity, reservations: map<Bytes32, Reservation>, intents: map<u64, Intent>,
                         ledger: seq<LedgerRow>, n: u64, i: Intent)
    requires ReservationsOk(c, id, reservations, intents, ledger)
    requires n in intents ==>
               i.reservationNonce == intents[n].reservationNonce && i.checkpointHash == intents[n].checkpointHash
    ensures ReservationsOk(c, id, reservations, intents[n := i], ledger)
  {
    forall m | m in reservations ensures ReservationOk(c, id, reservations[m], m, intents[n := i], ledger) {
      assert ReservationOk(c, id, reservations[m], m, intents, ledger);
    }
  }

  lemma NewIntentOk(c: Crypto, id: Identity, ch: Channel, nonce: Bytes32, r: Reservation, i: Intent, n: u64)
    requires Acceptable(c, id, ch, nonce, r, i) && n == |ch.ledger| + 1
    ensures IntentOk(c, id, ch.intents[n := i], ch.states, ch.ledger, ch.reservations[nonce := r], n)
    ensures ReservationOk(c, id, r, nonce, ch.intents[n := i], ch.ledger)
  {
  }

  lemma AcceptancePrepared(c: Crypto, coin: Bytes32, ch: Channel, row: ChannelRow, nonce: Bytes32, r: Reservation,
                           i: Intent)
    requires ChannelOk(c, coin, ch) && SameIdentity(ch.row, row) && nonce !in ch.reservations
    requires Acceptable(c, IdentityOf(coin, row), ch, nonce, r, i) && IntentFits(ch, i.checkpoint, i.checkpointHash)
    ensures ChannelOk(c, coin, ch.(row := row, reservations := ch.reservations[nonce := r],
                                   intents := ch.intents[|ch.ledger| + 1 := i]))
  {
    var id, n: u64 := IdentityOf(coin, row), |ch.ledger| + 1;
    var intents, reservations := ch.intents[n := i], ch.reservations[nonce := r];
    assert i.checkpoint.stateSequence == n;
    NewIntentOk(c, id, ch, nonce, r, i, n);
    IntentsKept(c, id, ch.intents, ch.states, ch.ledger, ch.reservations, nonce, r);
    IntentsTake(c, id, ch.intents, ch.states, ch.ledger, reservations, n, i);
    ReservationsKept(c, id, ch.reservations, ch.intents, ch.ledger, n, i);
    ReservationsTake(c, id, ch.reservations, intents, ch.ledger, nonce, r);
  }

  // ---------------------------------------------------------------- a row is finalized

  lemma SignedRow(c: Crypto, id: Identity, r: Reservation, nonce: Bytes32, s: SignedReservationResult)
    requires RowOk(c, id, r, nonce) && ResultOk(c, id, r, nonce, s)
    ensures RowOk(c, id, r.(stage := Stage.Signed, signedResult := Some(s)), nonce)
  {
    assert ResultFrom(r.(stage := Stage.Signed, signedResult := Some(s)), id.terms, id.coin, nonce)
        == ResultFrom(r, id.terms, id.coin, nonce);
  }

  lemma SignedRejection(c: Crypto, id: Identity, r: Reservation, nonce: Bytes32, s: SignedReservationResult,
                        intents: map<u64, Intent>, ledger: seq<LedgerRow>)
    requires ReservationOk(c, id, r, nonce, intents, ledger) && ResultOk(c, id, r, nonce, s)
    requires !IsSignedTarget(r) && r.entryIndex.None?
    ensures ReservationOk(c, id, r.(stage := Stage.Signed, signedResult := Some(s)), nonce, intents, ledger)
  {
    SignedRow(c, id, r, nonce, s);
  }

  /** Finalizing a rejection touches its row alone. */
  lemma RejectionFinalized(c: Crypto, coin: Bytes32, ch: Channel, nonce: Bytes32, r: Reservation,
                           s: SignedReservationResult)
    requires ChannelOk(c, coin, ch) && nonce in ch.reservations && ch.reservations[nonce] == r
    requires !IsSignedTarget(r) && r.entryIndex.None?
    requires ResultOk(c, IdentityOf(coin, ch.row), r, nonce, s)
    ensures ChannelOk(c, coin, MarkSigned(ch, nonce, r, s))
  {
    SignedRejection(c, IdentityOf(coin, ch.row), r, nonce, s, ch.intents, ch.ledger);
    RowWritten(c, coin, ch, ch.row, nonce, r.(stage := Stage.Signed, signedResult := Some(s)));
    assert MarkSigned(ch, nonce, r, s) ==
           ch.(row := ch.row,
               reservations := ch.reservations[nonce := r.(stage := Stage.Signed, signedResult := Some(s))]);
  }

  // ---------------------------------------------------------------- a state is committed

  lemma EntriesAppend(ledger: seq<LedgerRow>, l: LedgerRow)
    ensures Entries(ledger + [l]) == Entries(ledger) + [l.entry]
    ensures Signatures(ledger + [l]) == Signatures(ledger) + [l.signature]
  {
  }

  lemma LedgerAppended(c: Crypto, id: Identity, ledger: seq<LedgerRow>, l: LedgerRow)
    requires LedgerOk(c, id, ledger) && ValidLedger(c, id.terms, Entries(ledger) + [l.entry])
    requires VerifyAuthorization(c, id.terms, id.coin, l.entry, l.signature).Pass?
    requires l.entryIndex == |ledger| && l.stateSequence == |ledger| + 1
             && l.reservationNonce == l.entry.reservationNonce
    ensures LedgerOk(c, id, ledger + [l])
    ensures InsertRow(ledger, l) == ledger + [l]
    ensures LedgerRowFits(ledger, l)
  {
    EntriesAppend(ledger, l);
    var longer := ledger + [l];
    forall i | 0 <= i < |longer|
      ensures VerifyAuthorization(c, id.terms, id.coin, Entries(longer)[i], Signatures(longer)[i]).Pass?
    {
      assert i < |ledger| ==>
        VerifyAuthorization(c, id.terms, id.coin, Entries(ledger)[i], Signatures(ledger)[i]).Pass?;
    }
    AppendedNonceIsNew(c, id, ledger, l);
  }

  lemma AppendedNonceIsNew(c: Crypto, id: Identity, ledger: seq<LedgerRow>, l: LedgerRow)
    requires LedgerOk(c, id, ledger) && DistinctNonces(Entries(ledger) + [l.entry])
    requires l.reservationNonce == l.entry.reservationNonce
    ensures forall i :: 0 <= i < |ledger| ==> ledger[i].reservationNonce != l.reservationNonce
  {
    var longer := Entries(ledger) + [l.entry];
    forall i | 0 <= i < |ledger| ensures ledger[i].reservationNonce != l.reservationNonce {
      assert longer[i].reservationNonce != longer[|ledger|].reservationNonce;
    }
  }

  lemma StateKept(c: Crypto, id: Identity, states: map<u64, StateRow>, ledger: seq<LedgerRow>, l: LedgerRow,
                  n: u64, s: StateRow, k: u64)
    requires n == |ledger| + 1 && 1 <= k <= |ledger| && k in states && (0 in states <==> false)
    requires StateOk(c, id, states, ledger, k)
    ensures StateOk(c, id, states[n := s], ledger + [l], k)
  {
    assert (ledger + [l])[..k] == ledger[..k];
    assert HashAt(c, id, states[n := s], k - 1) == HashAt(c, id, states, k - 1);
  }

  /** The state a commit is about to append. */
  ghost predicate NextState(c: Crypto, id: Identity, states: map<u64, StateRow>, ledger: seq<LedgerRow>, l: LedgerRow,
                            s: StateRow)
  {
    && |ledger| < 64
    && s.officialState.checkpoint.stateSequence == |ledger| + 1
    && s.officialState.checkpoint.previousCheckpointHash == HashAt(c, id, states, |ledger|)
    && s.checkpointHash == CheckpointDigest(c, id.terms, s.officialState.checkpoint)
    && s.recoveryPackage ==
       RecoveryPackage(id.coin, id.puzzle, id.terms.fundingAmount, id.terms, s.officialState,
                       Entries(ledger) + [l.entry], Signatures(ledger) + [l.signature])
    && ValidPackage(c, s.recoveryPackage)
  }

  lemma NewStateOk(c: Crypto, id: Identity, states: map<u64, StateRow>, ledger: seq<LedgerRow>, l: LedgerRow,
                   n: u64, s: StateRow)
    requires n == |ledger| + 1 && NextState(c, id, states, ledger, l, s)
    ensures StateOk(c, id, states[n := s], ledger + [l], n)
  {
    EntriesAppend(ledger, l);
    assert (ledger + [l])[..n] == ledger + [l];
    assert HashAt(c, id, states[n := s], n - 1) == HashAt(c, id, states, n - 1);
  }

  lemma NextNumber(states: map<u64, StateRow>, m: nat, n: u64, s: StateRow)
    requires Numbered(states.Keys, m) && n == m + 1
    ensures Numbered(states[n := s].Keys, n)
  {
    assert states[n := s].Keys == states.Keys + {n};
  }

  lemma AnyStateOk(c: Crypto, id: Identity, states: map<u64, StateRow>, ledger: seq<LedgerRow>, l: LedgerRow,
                   n: u64, s: StateRow, k: u64)
    requires StatesOk(c, id, states, ledger) && n == |ledger| + 1 && NextState(c, id, states, ledger, l, s)
    requires k in states[n := s] && 1 <= k <= n
    ensures StateOk(c, id, states[n := s], ledger + [l], k)
  {
    if k == n {
      NewStateOk(c, id, states, ledger, l, n, s);
    } else {
      assert StateOk(c, id, states, ledger, k);
      StateKept(c, id, states, ledger, l, n, s, k);
    }
  }

  lemma StatesAppended(c: Crypto, id: Identity, states: map<u64, StateRow>, ledger: seq<LedgerRow>, l: LedgerRow,
                       n: u64, s: StateRow)
    requires StatesOk(c, id, states, ledger) && n == |ledger| + 1 && NextState(c, id, states, ledger, l, s)
    ensures StatesOk(c, id, states[n := s], ledger + [l])
  {
    var updated, longer := states[n := s], ledger + [l];
    NextNumber(states, |ledger|, n, s);
    assert Numbered(updated.Keys, |longer|);
    forall k: u64 | k in updated ensures StateOk(c, id, updated, longer, k) {
      AnyStateOk(c, id, states, ledger, l, n, s, k);
    }
  }

  lemma OldIntentKept(c: Crypto, id: Identity, intents: map<u64, Intent>, states: map<u64, StateRow>,
                      ledger: seq<LedgerRow>, reservations: map<Bytes32, Reservation>, n: u64, i: Intent, s: StateRow,
                      l: LedgerRow, k: u64)
    requires n == |ledger| + 1 && k in intents && 1 <= k <= |ledger|
    requires IntentOk(c, id, intents, states, ledger, reservations, k)
    ensures IntentOk(c, id, intents[n := i], states[n := s], ledger + [l], reservations, k)
  {
    assert (ledger + [l])[k - 1] == ledger[k - 1];
  }

  lemma SignedIntentOk(c: Crypto, id: Identity, intents: map<u64, Intent>, states: map<u64, StateRow>,
                       ledger: seq<LedgerRow>, reservations: map<Bytes32, Reservation>, n: u64, i: Intent, s: StateRow,
                       l: LedgerRow)
    requires n == |ledger| + 1 && n in intents && SignedIntent(i, s, l)
    requires IntentOk(c, id, intents, states, ledger, reservations, n)
    requires i == intents[n].(stage := Stage.Signed, hubStateSignature := i.hubStateSignature,
                              recoveryPackage := i.recoveryPackage)
    ensures IntentOk(c, id, intents[n := i], states[n := s], ledger + [l], reservations, n)
  {
    assert (ledger + [l])[n - 1] == l;
  }

  lemma AnyIntentSigned(c: Crypto, id: Identity, intents: map<u64, Intent>, states: map<u64, StateRow>,
                        ledger: seq<LedgerRow>, reservations: map<Bytes32, Reservation>, n: u64, i: Intent, s: StateRow,
                        l: LedgerRow, k: u64)
    requires IntentsOk(c, id, intents, states, ledger, reservations)
    requires n == |ledger| + 1 && n in intents && SignedIntent(i, s, l) && k in intents
    requires i == intents[n].(stage := Stage.Signed, hubStateSignature := i.hubStateSignature,
                              recoveryPackage := i.recoveryPackage)
    ensures IntentOk(c, id, intents[n := i], states[n := s], ledger + [l], reservations, k)
  {
    assert IntentOk(c, id, intents, states, ledger, reservations, k);
    if k == n {
      SignedIntentOk(c, id, intents, states, ledger, reservations, n, i, s, l);
    } else {
      OldIntentKept(c, id, intents, states, ledger, reservations, n, i, s, l, k);
    }
  }

  lemma HashesStayApart(intents: map<u64, Intent>, n: u64, i: Intent)
    requires n in intents && i.checkpointHash == intents[n].checkpointHash && HashesApart(intents)
    ensures HashesApart(intents[n := i])
  {
    var updated := intents[n := i];
    forall j: u64, k: u64 | j in updated && k in updated && updated[j].checkpointHash == updated[k].checkpointHash
      ensures j == k
    {
      assert updated[j].checkpointHash == intents[j].checkpointHash;
      assert updated[k].checkpointHash == intents[k].checkpointHash;
    }
  }

  lemma IntentSigned(c: Crypto, id: Identity, intents: map<u64, Intent>, states: map<u64, StateRow>,
                     ledger: seq<LedgerRow>, reservations: map<Bytes32, Reservation>, n: u64, i: Intent, s: StateRow,
                     l: LedgerRow)
    requires IntentsOk(c, id, intents, states, ledger, reservations)
    requires n == |ledger| + 1 && n in intents && SignedIntent(i, s, l)
    requires i == intents[n].(stage := Stage.Signed, hubStateSignature := i.hubStateSignature,
                              recoveryPackage := i.recoveryPackage)
    ensures IntentsOk(c, id, intents[n := i], states[n := s], ledger + [l], reservations)
  {
    var updated := intents[n := i];
    forall k: u64 | k in updated
      ensures IntentOk(c, id, updated, states[n := s], ledger + [l], reservations, k)
    {
      AnyIntentSigned(c, id, intents, states, ledger, reservations, n, i, s, l, k);
    }
    HashesStayApart(intents, n, i);
  }

  lemma ReservationsSigned(c: Crypto, id: Identity, reservations: map<Bytes32, Reservation>, intents: map<u64, Intent>,
                           ledger: seq<LedgerRow>, n: u64, nonce: Bytes32, r: Reservation, l: LedgerRow)
    requires ReservationsOk(c, id, reservations, intents, ledger)
    requires n == |ledger| + 1 && n in intents && intents[n].reservationNonce == nonce
    requires ReservationOk(c, id, r, nonce, intents, ledger + [l])
    ensures ReservationsOk(c, id, reservations[nonce := r], intents, ledger + [l])
  {
    var updated, longer := reservations[nonce := r], ledger + [l];
    forall m | m in updated ensures ReservationOk(c, id, updated[m], m, intents, longer) {
      if m != nonce {
        var other := reservations[m];
        assert ReservationOk(c, id, other, m, intents, ledger);
        if IsSignedTarget(other) {
          var k := other.targetStateSequence.value;
          assert k != n;
          assert k <= |ledger| ==> longer[k - 1] == ledger[k - 1];
        }
      }
    }
  }

  /** A prepared acceptance, and the state and package made for it. */
  ghost predicate Committable(c: Crypto, id: Identity, r: Reservation, nonce: Bytes32, i: Intent,
                              ledger: seq<LedgerRow>, s: StateRow, signed: SignedReservationResult)
  {
    && r.stage.Prepared? && IsSignedTarget(r)
    && r.targetStateSequence == Some(|ledger| + 1)
    && i.checkpoint == s.officialState.checkpoint && i.checkpointHash == s.checkpointHash
    && s.commitHeight == r.observedPeakHeight
    && s.recoveryPackage ==
       RecoveryPackage(id.coin, id.puzzle, id.terms.fundingAmount, id.terms, s.officialState,
                       Entries(ledger) + [r.entry], Signatures(ledger) + [r.signature])
    && ValidPackage(c, s.recoveryPackage)
    && ResultOk(c, id, r, nonce, signed)
  }

  function NewLedgerRow(r: Reservation, nonce: Bytes32, n: u64): LedgerRow
    requires n > 0
  {
    LedgerRow(n - 1, r.entry, r.signature, nonce, n)
  }

  function SignedIntentOf(i: Intent, s: StateRow): Intent {
    i.(stage := Stage.Signed, hubStateSignature := Some(s.officialState.hubStateSignature),
       recoveryPackage := Some(s.recoveryPackage))
  }

  /** The channel after the five writes and the reservation's. */
  function Committed(ch: Channel, nonce: Bytes32, r: Reservation, n: u64, i: Intent, s: StateRow,
                     signed: SignedReservationResult): Channel
    requires n > 0
  {
    Channel(ch.row.(latestSequence := n, latestCheckpointHash := s.checkpointHash),
            ch.intents[n := SignedIntentOf(i, s)],
            ch.states[n := s],
            ch.ledger + [NewLedgerRow(r, nonce, n)],
            ch.reservations[nonce := r.(stage := Stage.Signed, signedResult := Some(signed))])
  }

  lemma CommitExtendsLedger(c: Crypto, id: Identity, r: Reservation, nonce: Bytes32, intents: map<u64, Intent>,
                            ledger: seq<LedgerRow>, i: Intent, s: StateRow, signed: SignedReservationResult, n: u64)
    requires LedgerOk(c, id, ledger) && ReservationOk(c, id, r, nonce, intents, ledger)
    requires Committable(c, id, r, nonce, i, ledger, s, signed) && n == |ledger| + 1
    ensures LedgerOk(c, id, ledger + [NewLedgerRow(r, nonce, n)])
    ensures InsertRow(ledger, NewLedgerRow(r, nonce, n)) == ledger + [NewLedgerRow(r, nonce, n)]
    ensures LedgerRowFits(ledger, NewLedgerRow(r, nonce, n))
  {
    LedgerAppended(c, id, ledger, NewLedgerRow(r, nonce, n));
  }

  lemma CommitMakesNextState(c: Crypto, id: Identity, r: Reservation, nonce: Bytes32, intents: map<u64, Intent>,
                             states: map<u64, StateRow>, ledger: seq<LedgerRow>,
                             reservations: map<Bytes32, Reservation>, s: StateRow, signed: SignedReservationResult,
                             n: u64)
    requires n == |ledger| + 1 && n in intents && IntentOk(c, id, intents, states, ledger, reservations, n)
    requires Committable(c, id, r, nonce, intents[n], ledger, s, signed)
    ensures NextState(c, id, states, ledger, NewLedgerRow(r, nonce, n), s)
  {
  }

  lemma CommittedReservationOk(c: Crypto, id: Identity, r: Reservation, nonce: Bytes32, intents: map<u64, Intent>,
                               ledger: seq<LedgerRow>, s: StateRow, signed: SignedReservationResult, n: u64)
    requires n == |ledger| + 1 && n in intents && ReservationOk(c, id, r, nonce, intents, ledger)
    requires Committable(c, id, r, nonce, intents[n], ledger, s, signed)
    ensures ReservationOk(c, id, r.(stage := Stage.Signed, signedResult := Some(signed)), nonce,
                          intents[n := SignedIntentOf(intents[n], s)], ledger + [NewLedgerRow(r, nonce, n)])
  {
    SignedRow(c, id, r, nonce, signed);
    assert (ledger + [NewLedgerRow(r, nonce, n)])[n - 1] == NewLedgerRow(r, nonce, n);
  }

  /** The states' half of the invariant after a commit. */
  lemma CommitKeepsStates(c: Crypto, coin: Bytes32, ch: Channel, nonce: Bytes32, r: Reservation, s: StateRow,
                          signed: SignedReservationResult, n: u64)
    requires ChannelOk(c, coin, ch) && nonce in ch.reservations && ch.reservations[nonce] == r
    requires n == |ch.ledger| + 1 && n in ch.intents
    requires Committable(c, IdentityOf(coin, ch.row), r, nonce, ch.intents[n], ch.ledger, s, signed)
    ensures var id, after := IdentityOf(coin, ch.row), Committed(ch, nonce, r, n, ch.intents[n], s, signed);
            && LedgerOk(c, id, after.ledger)
            && StatesOk(c, id, after.states, after.ledger)
            && HeadOk(c, id, after.row, after.states, after.ledger)
            && LedgerRowFits(ch.ledger, NewLedgerRow(r, nonce, n))
            && InsertRow(ch.ledger, NewLedgerRow(r, nonce, n)) == after.ledger
  {
    var id := IdentityOf(coin, ch.row);
    assert ReservationOk(c, id, ch.reservations[nonce], nonce, ch.intents, ch.ledger);
    assert IntentOk(c, id, ch.intents, ch.states, ch.ledger, ch.reservations, n);
    CommitExtendsLedger(c, id, r, nonce, ch.intents, ch.ledger, ch.intents[n], s, signed, n);
    CommitMakesNextState(c, id, r, nonce, ch.intents, ch.states, ch.ledger, ch.reservations, s, signed, n);
    StatesAppended(c, id, ch.states, ch.ledger, NewLedgerRow(r, nonce, n), n, s);
  }

  lemma CommitKeepsIntents(c: Crypto, id: Identity, intents: map<u64, Intent>, states: map<u64, StateRow>,
                           ledger: seq<LedgerRow>, reservations: map<Bytes32, Reservation>, nonce: Bytes32, s: StateRow,
                           signed: SignedReservationResult, n: u64)
    requires IntentsOk(c, id, intents, states, ledger, reservations)
    requires n == |ledger| + 1 && n in intents && intents[n].reservationNonce == nonce && nonce in reservations
    requires Committable(c, id, reservations[nonce], nonce, intents[n], ledger, s, signed)
    ensures IntentsOk(c, id, intents[n := SignedIntentOf(intents[n], s)], states[n := s],
                      ledger + [NewLedgerRow(reservations[nonce], nonce, n)],
                      reservations[nonce := reservations[nonce].(stage := Stage.Signed, signedResult := Some(signed))])
  {
    var i, r, l := SignedIntentOf(intents[n], s), reservations[nonce], NewLedgerRow(reservations[nonce], nonce, n);
    assert IntentOk(c, id, intents, states, ledger, reservations, n);
    IntentSigned(c, id, intents, states, ledger, reservations, n, i, s, l);
    IntentsKept(c, id, intents[n := i], states[n := s], ledger + [l], reservations, nonce,
                r.(stage := Stage.Signed, signedResult := Some(signed)));
  }

  lemma CommitKeepsReservations(c: Crypto, id: Identity, intents: map<u64, Intent>, ledger: seq<LedgerRow>,
                                reservations: map<Bytes32, Reservation>, nonce: Bytes32, s: StateRow,
                                signed: SignedReservationResult, n: u64)
    requires ReservationsOk(c, id, reservations, intents, ledger)
    requires n == |ledger| + 1 && n in intents && intents[n].reservationNonce == nonce && nonce in reservations
    requires Committable(c, id, reservations[nonce], nonce, intents[n], ledger, s, signed)
    ensures ReservationsOk(c, id,
                           reservations[nonce :=
                                        reservations[nonce].(stage := Stage.Signed, signedResult := Some(signed))],
                           intents[n := SignedIntentOf(intents[n], s)],
                           ledger + [NewLedgerRow(reservations[nonce], nonce, n)])
  {
    var i, r, l := SignedIntentOf(intents[n], s), reservations[nonce], NewLedgerRow(reservations[nonce], nonce, n);
    assert ReservationOk(c, id, reservations[nonce], nonce, intents, ledger);
    ReservationsKept(c, id, reservations, intents, ledger, n, i);
    CommittedReservationOk(c, id, r, nonce, intents, ledger, s, signed, n);
    ReservationsSigned(c, id, reservations, intents[n := i], ledger, n, nonce,
                       r.(stage := Stage.Signed, signedResult := Some(signed)), l);
  }

  lemma TargetOwnsIntent(c: Crypto, id: Identity, r: Reservation, nonce: Bytes32, intents: map<u64, Intent>,
                         ledger: seq<LedgerRow>)
    requires ReservationOk(c, id, r, nonce, intents, ledger) && IsSignedTarget(r)
    ensures r.targetStateSequence.Some? && r.targetStateSequence.value in intents
    ensures intents[r.targetStateSequence.value].reservationNonce == nonce
  {
  }

  /** Committing the prepared state appends it: the channel stays well-formed and is one state longer. */
  lemma StateCommitted(c: Crypto, coin: Bytes32, ch: Channel, nonce: Bytes32, r: Reservation, s: StateRow,
                       signed: SignedReservationResult, n: u64)
    requires ChannelOk(c, coin, ch) && nonce in ch.reservations && ch.reservations[nonce] == r
    requires n == |ch.ledger| + 1 && n in ch.intents
    requires Committable(c, IdentityOf(coin, ch.row), r, nonce, ch.intents[n], ch.ledger, s, signed)
    ensures ChannelOk(c, coin, Committed(ch, nonce, r, n, ch.intents[n], s, signed))
  {
    CommitKeepsStates(c, coin, ch, nonce, r, s, signed, n);
    var id := IdentityOf(coin, ch.row);
    assert ReservationOk(c, id, ch.reservations[nonce], nonce, ch.intents, ch.ledger);
    TargetOwnsIntent(c, id, r, nonce, ch.intents, ch.ledger);
    CommitKeepsIntents(c, id, ch.intents, ch.states, ch.ledger, ch.reservations, nonce, s, signed, n);
    CommitKeepsReservations(c, id, ch.intents, ch.ledger, ch.reservations, nonce, s, signed, n);
  }
}
