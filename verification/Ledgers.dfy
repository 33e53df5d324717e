/** Ledgers: when one is valid, the totals it comes to, and what one more entry makes of it. */
module Ledgers {
  import opened ByteStrings
  import opened Protocol
  import opened Types

  // ---------------------------------------------------------------- validity

  function Total(entries: seq<LedgerEntry>): nat {
    if entries == [] then 0 else Total(Front(entries)) + Last(entries).amount
  }

  ghost predicate DistinctNonces(entries: seq<LedgerEntry>) {
    forall i, j :: 0 <= i < j < |entries| ==> entries[i].reservationNonce != entries[j].reservationNonce
  }

  ghost predicate ValidEntries(c: Crypto, entries: seq<LedgerEntry>) {
    forall i :: 0 <= i < |entries| ==> ValidateEntry(c, entries[i]).Pass?
  }

  function Nonces(entries: seq<LedgerEntry>): set<Bytes32> {
    set i | 0 <= i < |entries| :: entries[i].reservationNonce
  }

  /** What a ledger must be, said without the order in which it is checked. */
  ghost predicate ValidLedger(c: Crypto, t: ChannelTerms, entries: seq<LedgerEntry>) {
    && |entries| <= 64
    && ValidEntries(c, entries)
    && DistinctNonces(entries)
    && Total(entries) <= t.fundingAmount
  }

  function Last(entries: seq<LedgerEntry>): LedgerEntry
    requires entries != []
  {
    entries[|entries| - 1]
  }

  function Front(entries: seq<LedgerEntry>): seq<LedgerEntry>
    requires entries != []
  {
    entries[..|entries| - 1]
  }

  /** The checks one entry meets, given the nonces and the total before it, in the order the loop makes them. */
  function Admit(c: Crypto, e: LedgerEntry, nonces: set<Bytes32>, total: u64): Result<u64, ProtocolError> {
    var valid := ValidateEntry(c, e);
    :- valid;
    if e.reservationNonce in nonces then Failure(DuplicateNonce)
    else if total + e.amount >= 0x1_0000_0000_0000_0000 then Failure(ArithmeticOverflow("reserved_total"))
    else if total + e.amount > MAX_PROTOCOL_U64 then Failure(IntegerRange("reserved_total"))
    else Success(total + e.amount)
  }

  /** The loop over a whole list: the running total, or the first error. */
  function Tally(c: Crypto, entries: seq<LedgerEntry>): Result<u64, ProtocolError> {
    if entries == [] then Success(0) else
    var total :- Tally(c, Front(entries));
    Admit(c, Last(entries), Nonces(Front(entries)), total)
  }

  function ValidateLedger(c: Crypto, t: ChannelTerms, entries: seq<LedgerEntry>)
    : Result<(u64, u64), ProtocolError>
  {
    if |entries| > MAX_LEDGER_ENTRIES then Failure(LedgerFull) else
    var reserved :- Tally(c, entries);
    if reserved > t.fundingAmount then Failure(InsufficientRemainder)
    else Success((reserved, t.fundingAmount - reserved))
  }

  method Validate(c: Crypto, t: ChannelTerms, entries: seq<LedgerEntry>)
    returns (r: Result<(u64, u64), ProtocolError>)
    ensures r == ValidateLedger(c, t, entries)
  {
    if |entries| > MAX_LEDGER_ENTRIES {
      return Failure(LedgerFull);
    }
    var nonces: set<Bytes32> := {};
    var reservedTotal: u64 := 0;
    var i := 0;
    while i < |entries|
      invariant 0 <= i <= |entries|
      invariant nonces == Nonces(entries[..i])
      invariant Tally(c, entries[..i]) == Success(reservedTotal)
    {
      var entry := entries[i];
      TallyStep(c, entries, i);
      FirstErrorStands(c, entries, i + 1);
      var check := ValidateEntry(c, entry);
      if check.Fail? {
        return Failure(check.error);
      }
      if entry.reservationNonce in nonces {
        return Failure(DuplicateNonce);
      }
      NoncesGrow(entries, i);
      nonces := nonces + {entry.reservationNonce};
      if reservedTotal + entry.amount >= 0x1_0000_0000_0000_0000 {
        return Failure(ArithmeticOverflow("reserved_total"));
      }
      if reservedTotal + entry.amount > MAX_PROTOCOL_U64 {
        return Failure(IntegerRange("reserved_total"));
      }
      reservedTotal := reservedTotal + entry.amount;
      i := i + 1;
    }
    assert entries[..i] == entries;
    if reservedTotal > t.fundingAmount {
      return Failure(InsufficientRemainder);
    }
    return Success((reservedTotal, t.fundingAmount - reservedTotal));
  }

  lemma NoncesGrow(entries: seq<LedgerEntry>, i: nat)
    requires i < |entries|
    ensures Nonces(entries[..i + 1]) == Nonces(entries[..i]) + {entries[i].reservationNonce}
  {
    assert entries[..i + 1] == entries[..i] + [entries[i]];
  }

  lemma TallyStep(c: Crypto, entries: seq<LedgerEntry>, i: nat)
    requires i < |entries| && Tally(c, entries[..i]).Success?
    ensures Tally(c, entries[..i + 1]) == Admit(c, entries[i], Nonces(entries[..i]), Tally(c, entries[..i]).value)
  {
    assert Front(entries[..i + 1]) == entries[..i];
  }

  /** An error met in a prefix is the error of the whole list. */
  lemma {:induction false} FirstErrorStands(c: Crypto, entries: seq<LedgerEntry>, i: nat)
    requires i <= |entries|
    ensures Tally(c, entries[..i]).Failure? ==> Tally(c, entries) == Tally(c, entries[..i])
    decreases |entries|
  {
    if i == |entries| {
      assert entries[..i] == entries;
    } else {
      assert Front(entries)[..i] == entries[..i];
      FirstErrorStands(c, Front(entries), i);
    }
  }

  // ---------------------------------------------------------------- what validation accepts

  /** One entry more: valid when the rest is, and the entry is valid and fresh. */
  lemma OneMore(c: Crypto, entries: seq<LedgerEntry>, e: LedgerEntry)
    ensures ValidEntries(c, entries + [e]) <==> ValidEntries(c, entries) && ValidateEntry(c, e).Pass?
    ensures DistinctNonces(entries + [e]) <==> DistinctNonces(entries) && e.reservationNonce !in Nonces(entries)
    ensures Total(entries + [e]) == Total(entries) + e.amount
  {
    var longer := entries + [e];
    assert longer[..|entries|] == entries && longer[|entries|] == e;
    assert forall i :: 0 <= i < |entries| ==> longer[i] == entries[i];
    if DistinctNonces(longer) {
      assert forall i :: 0 <= i < |entries| ==> longer[i].reservationNonce != longer[|entries|].reservationNonce;
    }
    if DistinctNonces(entries) && e.reservationNonce !in Nonces(entries) {
      assert forall i :: 0 <= i < |entries| ==> entries[i].reservationNonce in Nonces(entries);
    }
  }

  /** The loop succeeds exactly on valid, distinct entries whose total stays in range, and never overflows. */
  lemma {:induction false} TallyMeaning(c: Crypto, entries: seq<LedgerEntry>)
    ensures Tally(c, entries).Success? <==>
            ValidEntries(c, entries) && DistinctNonces(entries) && Total(entries) <= MAX_PROTOCOL_U64
    ensures Tally(c, entries).Success? ==> Tally(c, entries).value == Total(entries)
    ensures Tally(c, entries) != Failure(ArithmeticOverflow("reserved_total"))
  {
    if entries != [] {
      TallyMeaning(c, Front(entries));
      OneMore(c, Front(entries), Last(entries));
      assert entries == Front(entries) + [Last(entries)];
    }
  }

  /** `Ledger::validate` accepts exactly the valid ledgers, with their total and what is left of the funding; its
      64-bit addition never overflows. */
  lemma LedgerAcceptedIffValid(c: Crypto, t: ChannelTerms, entries: seq<LedgerEntry>)
    requires t.fundingAmount <= MAX_PROTOCOL_U64
    ensures ValidateLedger(c, t, entries).Success? <==> ValidLedger(c, t, entries)
    ensures ValidLedger(c, t, entries) ==>
              ValidateLedger(c, t, entries) == Success((Total(entries), t.fundingAmount - Total(entries)))
    ensures ValidateLedger(c, t, entries) != Failure(ArithmeticOverflow("reserved_total"))
  {
    TallyMeaning(c, entries);
  }

  lemma TallyAppend(c: Crypto, entries: seq<LedgerEntry>, e: LedgerEntry)
    requires Tally(c, entries).Success?
    ensures Tally(c, entries + [e]) == Admit(c, e, Nonces(entries), Tally(c, entries).value)
  {
    assert Front(entries + [e]) == entries && Last(entries + [e]) == e;
  }

  lemma AdmitFresh(c: Crypto, e: LedgerEntry, nonces: set<Bytes32>, total: u64)
    requires total <= MAX_PROTOCOL_U64 && ValidateEntry(c, e).Pass? && e.reservationNonce !in nonces
    ensures Admit(c, e, nonces, total) ==
            if total + e.amount > MAX_PROTOCOL_U64 then Failure(IntegerRange("reserved_total"))
            else Success(total + e.amount)
  {
  }

  /** A valid list with its total, and one more valid entry whose nonce is fresh. */
  ghost predicate Extends(c: Crypto, t: ChannelTerms, entries: seq<LedgerEntry>, e: LedgerEntry, total: nat) {
    && ValidEntries(c, entries)
    && DistinctNonces(entries)
    && Total(entries) == total <= t.fundingAmount <= MAX_PROTOCOL_U64
    && ValidateEntry(c, e).Pass?
    && e.reservationNonce !in Nonces(entries)
  }

  lemma TallyOfFresh(c: Crypto, t: ChannelTerms, entries: seq<LedgerEntry>, e: LedgerEntry, total: nat)
    requires Extends(c, t, entries, e, total)
    ensures Tally(c, entries + [e]) ==
            if total + e.amount > MAX_PROTOCOL_U64 then Failure(IntegerRange("reserved_total"))
            else Success(total + e.amount)
  {
    TallyMeaning(c, entries);
    TallyAppend(c, entries, e);
    AdmitFresh(c, e, Nonces(entries), total);
  }

  lemma VerdictOfTally(c: Crypto, t: ChannelTerms, entries: seq<LedgerEntry>, r: Result<u64, ProtocolError>)
    requires Tally(c, entries) == r
    ensures ValidateLedger(c, t, entries) ==
            if |entries| > 64 then Failure(LedgerFull)
            else if r.Failure? then Failure(r.error)
            else if r.value > t.fundingAmount then Failure(InsufficientRemainder)
            else Success((r.value, t.fundingAmount - r.value))
  {
  }

  /** The verdict on one more entry: full, out of range, too expensive, or accepted. */
  lemma AppendVerdict(c: Crypto, t: ChannelTerms, entries: seq<LedgerEntry>, e: LedgerEntry, total: nat)
    requires Extends(c, t, entries, e, total)
    ensures ValidateLedger(c, t, entries + [e]) ==
            if |entries| >= 64 then Failure(LedgerFull)
            else if total + e.amount > MAX_PROTOCOL_U64 then Failure(IntegerRange("reserved_total"))
            else if total + e.amount > t.fundingAmount then Failure(InsufficientRemainder)
            else Success((total + e.amount, t.fundingAmount - total - e.amount))
  {
    TallyOfFresh(c, t, entries, e, total);
    VerdictOfTally(c, t, entries + [e], Tally(c, entries + [e]));
  }
}
