/** What reading a well-formed database yields, exactly. */
module HubReads {
  import opened ByteStrings
  import opened Protocol
  import opened Types
  import opened Packages
  import opened HubRecords
  import opened HubGate
  import opened HubInvariant

  lemma RowLoadsIff(c: Crypto, coin: Bytes32, row: ChannelRow)
    requires RowBound(c, coin, row)
    ensures CheckChannelRow(c, row).Pass? <==> HeightsBind(row)
  {
    TermsFacts(c, row.terms);
  }

  lemma HeadPointerBinds(c: Crypto, coin: Bytes32, ch: Channel)
    requires ChannelOk(c, coin, ch)
    ensures CheckHeadPointer(c, coin, ch).Pass?
  {
    var n := ch.row.latestSequence;
    assert Numbered(ch.states.Keys, |ch.ledger|);
    assert n in ch.states.Keys <==> 1 <= n;
  }

  /** A well-formed channel loads exactly when its recorded heights still bind to its terms. */
  lemma ChannelLoadsIff(c: Crypto, db: Database, coin: Bytes32)
    requires coin in db && ChannelOk(c, coin, db[coin])
    ensures LoadChannel(c, db, coin).Success? <==> HeightsBind(db[coin].row)
    ensures LoadChannel(c, db, coin).Success? ==> LoadChannel(c, db, coin).value == db[coin].row
  {
    RowLoadsIff(c, coin, db[coin].row);
    HeadPointerBinds(c, coin, db[coin]);
  }

  lemma ReservationLoads(c: Crypto, db: Database, coin: Bytes32, nonce: Bytes32)
    requires coin in db && ChannelOk(c, coin, db[coin])
    ensures LoadReservation(c, db, coin, nonce) ==
            Success(if nonce in db[coin].reservations then Some(db[coin].reservations[nonce]) else None)
  {
    var ch := db[coin];
    if nonce in ch.reservations {
      assert ReservationOk(c, IdentityOf(coin, ch.row), ch.reservations[nonce], nonce, ch.intents, ch.ledger);
    }
  }

  /** Every stored row passes the binding check except a rejection for want of room, which fails it for ever. */
  lemma BindingHoldsIff(c: Crypto, id: Identity, r: Reservation, nonce: Bytes32, intents: map<u64, Intent>,
                        ledger: seq<LedgerRow>)
    requires ValidTerms(c, id.terms) && ReservationOk(c, id, r, nonce, intents, ledger)
    ensures ValidateBinding(c, r, id.terms, id.coin, nonce) ==
            if Stuck(r) then Fail(Corrupt("reservation state binding")) else Pass
  {
  }

  lemma AuthorizedRowDecodes(c: Crypto, t: ChannelTerms, coin: Bytes32, e: LedgerEntry, s: Bytes96)
    requires VerifyAuthorization(c, t, coin, e, s).Pass?
    ensures ValidateEntry(c, e).Pass? && ParseSignature(c, s).Pass?
  {
  }

  lemma {:induction false} LedgerDecodes(c: Crypto, t: ChannelTerms, coin: Bytes32, rows: seq<LedgerRow>)
    requires forall i :: 0 <= i < |rows| ==> VerifyAuthorization(c, t, coin, rows[i].entry, rows[i].signature).Pass?
    ensures CheckLedgerRows(c, rows).Pass?
  {
    if rows != [] {
      AuthorizedRowDecodes(c, t, coin, rows[0].entry, rows[0].signature);
      LedgerDecodes(c, t, coin, rows[1..]);
    }
  }

  lemma LedgerLoads(c: Crypto, db: Database, coin: Bytes32)
    requires coin in db && LedgerOk(c, IdentityOf(coin, db[coin].row), db[coin].ledger)
    ensures LoadLedger(c, db, coin) == Success(db[coin].ledger)
  {
    var rows, id := db[coin].ledger, IdentityOf(coin, db[coin].row);
    forall i | 0 <= i < |rows|
      ensures VerifyAuthorization(c, id.terms, coin, rows[i].entry, rows[i].signature).Pass?
    {
      assert VerifyAuthorization(c, id.terms, coin, Entries(rows)[i], Signatures(rows)[i]).Pass?;
    }
    LedgerDecodes(c, id.terms, coin, rows);
  }
}
