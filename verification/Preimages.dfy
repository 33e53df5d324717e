/** Which hashed strings can be equal: a preimage determines everything that was framed into it. */
module Preimages {
  import opened ByteStrings
  import opened Protocol
  import opened Encoding
  import opened Types
  import Codec

  lemma CheckpointPreimageInjective(t: ChannelTerms, k: LedgerCheckpoint, u: ChannelTerms, l: LedgerCheckpoint)
    requires CheckpointPreimage(t, k) == CheckpointPreimage(u, l)
    ensures t.networkId == u.networkId && k == l
  {
    var a, b := t.networkId + EncodeCheckpoint(k), u.networkId + EncodeCheckpoint(l);
    Split(CHECKPOINT_DOMAIN, U16(PROTOCOL_VERSION) + a, CHECKPOINT_DOMAIN, U16(PROTOCOL_VERSION) + b);
    Split(U16(PROTOCOL_VERSION), a, U16(PROTOCOL_VERSION), b);
    Split(t.networkId, EncodeCheckpoint(k), u.networkId, EncodeCheckpoint(l));
    Codec.CheckpointRoundTrip(k, []);
    Codec.CheckpointRoundTrip(l, []);
  }

  lemma TermsPreimageInjective(c: Crypto, t: ChannelTerms, u: ChannelTerms)
    requires TermsPreimage(t) == TermsPreimage(u) && ValidTerms(c, t) && ValidTerms(c, u)
    ensures t == u
  {
    Split(CHANNEL_TERMS_DOMAIN, EncodeTerms(t), CHANNEL_TERMS_DOMAIN, EncodeTerms(u));
    Codec.TermsRoundTrip(c, t, []);
    Codec.TermsRoundTrip(c, u, []);
  }

  lemma EntryEncodingInjective(e: LedgerEntry, f: LedgerEntry)
    requires EncodeEntry(e) == EncodeEntry(f)
    ensures e == f
  {
    var x, y := U64(e.amount) + e.reservationNonce, U64(f.amount) + f.reservationNonce;
    Split(e.merchantPuzzleHash, e.merchantReceiptPublicKey + x, f.merchantPuzzleHash, f.merchantReceiptPublicKey + y);
    Split(e.merchantReceiptPublicKey, x, f.merchantReceiptPublicKey, y);
    Split(U64(e.amount), e.reservationNonce, U64(f.amount), f.reservationNonce);
    U64Injective(e.amount, f.amount);
  }

  lemma EntryPreimageInjective(i: u64, e: LedgerEntry, a: Bytes32, j: u64, f: LedgerEntry, b: Bytes32)
    requires EntryPreimage(i, e, a) == EntryPreimage(j, f, b)
    ensures i == j && e == f && a == b
  {
    Split(LEDGER_ENTRY_DOMAIN, U64(i) + (EncodeEntry(e) + a), LEDGER_ENTRY_DOMAIN, U64(j) + (EncodeEntry(f) + b));
    Split(U64(i), EncodeEntry(e) + a, U64(j), EncodeEntry(f) + b);
    Split(EncodeEntry(e), a, EncodeEntry(f), b);
    U64Injective(i, j);
    EntryEncodingInjective(e, f);
  }

  lemma HubStatePreimageInjective(a: Bytes32, b: Bytes32)
    requires HubStatePreimage(a) == HubStatePreimage(b)
    ensures a == b
  {
    Split(HUB_STATE_DOMAIN, a, HUB_STATE_DOMAIN, b);
  }

  lemma ResultPreimageInjective(r: ReservationResult, s: ReservationResult)
    requires ResultPreimage(r) == ResultPreimage(s) && ValidateResult(r).Pass? && ValidateResult(s).Pass?
    ensures r == s
  {
    Split(RESERVATION_RESULT_DOMAIN, EncodeResult(r), RESERVATION_RESULT_DOMAIN, EncodeResult(s));
    Codec.ResultRoundTrip(r, []);
    Codec.ResultRoundTrip(s, []);
    assert EncodeResult(r) + [] == EncodeResult(r);
  }

  /** The two kinds of message the HUB signs never coincide: their domain tags differ at the sixth byte. */
  lemma SignedMessageKindsDiffer(checkpointHash: Bytes32, r: ReservationResult)
    ensures HubStatePreimage(checkpointHash) != ResultPreimage(r)
  {
    assert HubStatePreimage(checkpointHash)[5] == HUB_STATE_DOMAIN[5];
    assert ResultPreimage(r)[5] == RESERVATION_RESULT_DOMAIN[5];
    assert HUB_STATE_DOMAIN[5] as int == 'H' as int && RESERVATION_RESULT_DOMAIN[5] as int == 'R' as int;
  }
}
