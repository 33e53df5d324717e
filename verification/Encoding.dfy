/** The canonical wire primitives: parsers as functions of the unread input, and the offset-advancing
    decoder and appending buffer of the program proved against them. */
module Encoding {
  import opened ByteStrings
  import opened Protocol

  /** What a decoder step yields: a value and the bytes it left unread. */
  datatype Parsed<+T> = Ok(value: T, rest: Bytes) | Bad(error: ProtocolError) {
    predicate IsFailure() { Bad? }
    function PropagateFailure<U>(): Parsed<U>
      requires Bad?
    {
      Bad(error)
    }
    function Extract(): (T, Bytes)
      requires Ok?
    {
      (value, rest)
    }
  }

  // ---------------------------------------------------------------- parsers

  function ReadFixed(s: Bytes, n: nat): Parsed<Bytes> {
    if |s| < n then Bad(UnexpectedEnd) else Ok(s[..n], s[n..])
  }

  function Read32(s: Bytes): Parsed<Bytes32> {
    if |s| < 32 then Bad(UnexpectedEnd) else Ok(s[..32], s[32..])
  }

  function Read48(s: Bytes): Parsed<Bytes48> {
    if |s| < 48 then Bad(UnexpectedEnd) else Ok(s[..48], s[48..])
  }

  function Read96(s: Bytes): Parsed<Bytes96> {
    if |s| < 96 then Bad(UnexpectedEnd) else Ok(s[..96], s[96..])
  }

  function ReadU8(s: Bytes): Parsed<u8> {
    if |s| < 1 then Bad(UnexpectedEnd) else Ok(s[0] as int, s[1..])
  }

  function ReadU16(s: Bytes): Parsed<u16> {
    if |s| < 2 then Bad(UnexpectedEnd) else (Widths(); FromBEBound(s[..2]); Ok(FromBE(s[..2]), s[2..]))
  }

  function ReadU32(s: Bytes): Parsed<u32> {
    if |s| < 4 then Bad(UnexpectedEnd) else (Widths(); FromBEBound(s[..4]); Ok(FromBE(s[..4]), s[4..]))
  }

  function ReadU64(s: Bytes): Parsed<u64> {
    if |s| < 8 then Bad(UnexpectedEnd) else (Widths(); FromBEBound(s[..8]); Ok(FromBE(s[..8]), s[8..]))
  }

  function ReadBool(s: Bytes): Parsed<bool> {
    var (tag, rest) :- ReadU8(s);
    if tag == 0 then Ok(false, rest) else if tag == 1 then Ok(true, rest) else Bad(InvalidBool(tag))
  }

  function ReadBlob(s: Bytes, limit: nat): Parsed<Bytes> {
    var (length, rest) :- ReadU32(s);
    if length > limit then Bad(LengthLimit(length, limit)) else ReadFixed(rest, length)
  }

  /** Runs a validation after a decode, as the decoders' trailing `validate()?` does. */
  function Checked<T>(check: Check, value: T, rest: Bytes): Parsed<T> {
    if check.Fail? then Bad(check.error) else Ok(value, rest)
  }

  /** `from_canonical_bytes`: decode, then insist the input is exhausted. */
  function Finish<T>(p: Parsed<T>): Result<T, ProtocolError> {
    if p.Bad? then Failure(p.error)
    else if p.rest == [] then Success(p.value)
    else Failure(TrailingBytes(|p.rest|))
  }

  // ---------------------------------------------------------------- encoders

  function PutBool(value: bool): (b: Bytes) ensures |b| == 1 { if value then [1] else [0] }

  function PutBlob(blob: Bytes): Bytes
    requires |blob| < 0x1_0000_0000
  {
    U32(|blob|) + blob
  }

  // ---------------------------------------------------------------- primitive round trips

  lemma TakesWhole(a: Bytes, s: Bytes)
    ensures (a + s)[..|a|] == a && (a + s)[|a|..] == s
  {
  }

  lemma U16RoundTrip(v: u16, s: Bytes)
    ensures ReadU16(U16(v) + s) == Ok(v, s)
  {
    Widths();
    FromToBE(v, 2);
    TakesWhole(U16(v), s);
  }

  lemma U32RoundTrip(v: u32, s: Bytes)
    ensures ReadU32(U32(v) + s) == Ok(v, s)
  {
    Widths();
    FromToBE(v, 4);
    TakesWhole(U32(v), s);
  }

  lemma U64RoundTrip(v: u64, s: Bytes)
    ensures ReadU64(U64(v) + s) == Ok(v, s)
  {
    Widths();
    FromToBE(v, 8);
    TakesWhole(U64(v), s);
  }

  lemma U16Canonical(s: Bytes)
    requires ReadU16(s).Ok?
    ensures s == U16(ReadU16(s).value) + ReadU16(s).rest
  {
    ToFromBE(s[..2]);
    assert s == s[..2] + s[2..];
  }

  lemma U32Canonical(s: Bytes)
    requires ReadU32(s).Ok?
    ensures s == U32(ReadU32(s).value) + ReadU32(s).rest
  {
    ToFromBE(s[..4]);
    assert s == s[..4] + s[4..];
  }

  lemma U64Canonical(s: Bytes)
    requires ReadU64(s).Ok?
    ensures s == U64(ReadU64(s).value) + ReadU64(s).rest
  {
    ToFromBE(s[..8]);
    assert s == s[..8] + s[8..];
  }

  lemma Read32RoundTrip(b: Bytes32, s: Bytes)
    ensures Read32(b + s) == Ok(b, s)
  {
    TakesWhole(b, s);
  }

  lemma Read48RoundTrip(b: Bytes48, s: Bytes)
    ensures Read48(b + s) == Ok(b, s)
  {
    TakesWhole(b, s);
  }

  lemma Read48Canonical(s: Bytes)
    requires Read48(s).Ok?
    ensures s == Read48(s).value + Read48(s).rest
  {
  }

  lemma Read32Canonical(s: Bytes)
    requires Read32(s).Ok?
    ensures s == Read32(s).value + Read32(s).rest
  {
  }

  lemma ReadBoolCanonical(s: Bytes)
    requires ReadBool(s).Ok?
    ensures s == PutBool(ReadBool(s).value) + ReadBool(s).rest
  {
  }

  /** Every primitive, decoding what it encoded whatever follows. */
  lemma PrimitiveRoundTrips()
    ensures forall b: Bytes32, s: Bytes {:trigger Read32(b + s)} :: Read32(b + s) == Ok(b, s)
    ensures forall b: Bytes48, s: Bytes {:trigger Read48(b + s)} :: Read48(b + s) == Ok(b, s)
    ensures forall b: Bytes96, s: Bytes {:trigger Read96(b + s)} :: Read96(b + s) == Ok(b, s)
    ensures forall v: u16, s: Bytes {:trigger ReadU16(U16(v) + s)} :: ReadU16(U16(v) + s) == Ok(v, s)
    ensures forall v: u32, s: Bytes {:trigger ReadU32(U32(v) + s)} :: ReadU32(U32(v) + s) == Ok(v, s)
    ensures forall v: u64, s: Bytes {:trigger ReadU64(U64(v) + s)} :: ReadU64(U64(v) + s) == Ok(v, s)
    ensures forall v: bool, s: Bytes {:trigger ReadBool(PutBool(v) + s)} :: ReadBool(PutBool(v) + s) == Ok(v, s)
    ensures forall b: byte, s: Bytes {:trigger ReadU8([b] + s)} :: ReadU8([b] + s) == Ok(b as int, s)
  {
    forall b: Bytes, s: Bytes ensures (b + s)[..|b|] == b && (b + s)[|b|..] == s { TakesWhole(b, s); }
    forall v: u16, s: Bytes ensures ReadU16(U16(v) + s) == Ok(v, s) { U16RoundTrip(v, s); }
    forall v: u32, s: Bytes ensures ReadU32(U32(v) + s) == Ok(v, s) { U32RoundTrip(v, s); }
    forall v: u64, s: Bytes ensures ReadU64(U64(v) + s) == Ok(v, s) { U64RoundTrip(v, s); }
    forall v: bool, s: Bytes ensures ReadBool(PutBool(v) + s) == Ok(v, s) { TakesWhole(PutBool(v), s); }
    forall b: byte, s: Bytes ensures ReadU8([b] + s) == Ok(b as int, s) { TakesWhole([b], s); }
  }

  /** Every primitive, re-encoding what it decoded to exactly the bytes it read. */
  lemma PrimitivesCanonical()
    ensures forall s: Bytes {:trigger Read32(s)} :: Read32(s).Ok? ==> s == Read32(s).value + Read32(s).rest
    ensures forall s: Bytes {:trigger Read48(s)} :: Read48(s).Ok? ==> s == Read48(s).value + Read48(s).rest
    ensures forall s: Bytes {:trigger Read96(s)} :: Read96(s).Ok? ==> s == Read96(s).value + Read96(s).rest
    ensures forall s: Bytes {:trigger ReadU16(s)} :: ReadU16(s).Ok? ==> s == U16(ReadU16(s).value) + ReadU16(s).rest
    ensures forall s: Bytes {:trigger ReadU32(s)} :: ReadU32(s).Ok? ==> s == U32(ReadU32(s).value) + ReadU32(s).rest
    ensures forall s: Bytes {:trigger ReadU64(s)} :: ReadU64(s).Ok? ==> s == U64(ReadU64(s).value) + ReadU64(s).rest
    ensures forall s: Bytes {:trigger ReadBool(s)} :: ReadBool(s).Ok? ==>
              s == PutBool(ReadBool(s).value) + ReadBool(s).rest
    ensures forall s: Bytes {:trigger ReadU8(s)} :: ReadU8(s).Ok? ==> s == [ReadU8(s).value as byte] + ReadU8(s).rest
  {
    forall s: Bytes | ReadU16(s).Ok? ensures s == U16(ReadU16(s).value) + ReadU16(s).rest { U16Canonical(s); }
    forall s: Bytes | ReadU32(s).Ok? ensures s == U32(ReadU32(s).value) + ReadU32(s).rest { U32Canonical(s); }
    forall s: Bytes | ReadU64(s).Ok? ensures s == U64(ReadU64(s).value) + ReadU64(s).rest { U64Canonical(s); }
  }

  // ---------------------------------------------------------------- the decoder

  /** The relation between a decoding method's result and the parser that specifies it. */
  ghost predicate Decoded<T(!new)>(r: Result<T, ProtocolError>, p: Parsed<T>, rest: Bytes) {
    match p
    case Ok(value, tail) => r == Success(value) && rest == tail
    case Bad(error) => r == Failure(error)
  }

  class Decoder {
    const input: Bytes
    var offset: nat

    ghost predicate Valid()
      reads this
    {
      offset <= |input|
    }

    /** The bytes not yet read. */
    ghost function Rest(): Bytes
      reads this
      requires Valid()
    {
      input[offset..]
    }

    constructor (input: Bytes)
      ensures Valid() && Rest() == input && this.input == input
    {
      this.input := input;
      offset := 0;
    }

    method Take(n: nat) returns (r: Result<Bytes, ProtocolError>)
      requires Valid()
      modifies this
      ensures Valid() && offset >= old(offset)
      ensures Decoded(r, ReadFixed(old(Rest()), n), Rest())
      ensures r.Failure? ==> offset == old(offset)
    {
      var end := offset + n;
      if end > |input| {
        return Failure(UnexpectedEnd);
      }
      var bytes := input[offset..end];
      assert input[offset..][..n] == bytes && input[offset..][n..] == input[end..];
      offset := end;
      return Success(bytes);
    }

    method Take32() returns (r: Result<Bytes32, ProtocolError>)
      requires Valid()
      modifies this
      ensures Valid() && Decoded(r, Read32(old(Rest())), Rest())
    {
      var b :- Take(32);
      return Success(b);
    }

    method Take48() returns (r: Result<Bytes48, ProtocolError>)
      requires Valid()
      modifies this
      ensures Valid() && Decoded(r, Read48(old(Rest())), Rest())
    {
      var b :- Take(48);
      return Success(b);
    }

    method Take96() returns (r: Result<Bytes96, ProtocolError>)
      requires Valid()
      modifies this
      ensures Valid() && Decoded(r, Read96(old(Rest())), Rest())
    {
      var b :- Take(96);
      return Success(b);
    }

    method U8() returns (r: Result<u8, ProtocolError>)
      requires Valid()
      modifies this
      ensures Valid() && Decoded(r, ReadU8(old(Rest())), Rest())
    {
      var b :- Take(1);
      return Success(b[0] as int);
    }

    method U16() returns (r: Result<u16, ProtocolError>)
      requires Valid()
      modifies this
      ensures Valid() && Decoded(r, ReadU16(old(Rest())), Rest())
    {
      var b :- Take(2);
      Widths();
      FromBEBound(b);
      return Success(FromBE(b));
    }

    method U32() returns (r: Result<u32, ProtocolError>)
      requires Valid()
      modifies this
      ensures Valid() && Decoded(r, ReadU32(old(Rest())), Rest())
    {
      var b :- Take(4);
      Widths();
      FromBEBound(b);
      return Success(FromBE(b));
    }

    method U64() returns (r: Result<u64, ProtocolError>)
      requires Valid()
      modifies this
      ensures Valid() && Decoded(r, ReadU64(old(Rest())), Rest())
    {
      var b :- Take(8);
      Widths();
      FromBEBound(b);
      return Success(FromBE(b));
    }

    method Bool() returns (r: Result<bool, ProtocolError>)
      requires Valid()
      modifies this
      ensures Valid() && Decoded(r, ReadBool(old(Rest())), Rest())
    {
      var tag :- U8();
      if tag == 0 {
        return Success(false);
      } else if tag == 1 {
        return Success(true);
      }
      return Failure(InvalidBool(tag));
    }

    method Blob(limit: nat) returns (r: Result<Bytes, ProtocolError>)
      requires Valid()
      modifies this
      ensures Valid() && Decoded(r, ReadBlob(old(Rest()), limit), Rest())
    {
      var length :- U32();
      if length > limit {
        return Failure(LengthLimit(length, limit));
      }
      r := Take(length);
    }

    /** Succeeds exactly when everything was read, and otherwise reports how much was not. */
    method Finish() returns (r: Outcome<ProtocolError>)
      requires Valid()
      ensures r == if Rest() == [] then Pass else Fail(TrailingBytes(|Rest()|))
    {
      var remaining := |input| - offset;
      return if remaining == 0 then Pass else Fail(TrailingBytes(remaining));
    }
  }

  // ---------------------------------------------------------------- the output buffer

  class Output {
    var bytes: Bytes

    constructor ()
      ensures bytes == []
    {
      bytes := [];
    }

    method Extend(more: Bytes)
      modifies this
      ensures bytes == old(bytes) + more
    {
      bytes := bytes + more;
    }
  }
}
