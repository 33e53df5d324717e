/** Byte strings, fixed-width big-endian integers, and what a hash collision is. */
module ByteStrings {

  newtype byte = x: int | 0 <= x < 256

  type Bytes = seq<byte>

  type Bytes8 = b: Bytes | |b| == 8 witness Zeros(8)
  type Bytes32 = b: Bytes | |b| == 32 witness Zeros(32)
  type Bytes48 = b: Bytes | |b| == 48 witness Zeros(48)
  type Bytes96 = b: Bytes | |b| == 96 witness Zeros(96)

  type u8 = x: int | 0 <= x < 0x100
  type u16 = x: int | 0 <= x < 0x1_0000
  type u32 = x: int | 0 <= x < 0x1_0000_0000
  type u64 = x: int | 0 <= x < 0x1_0000_0000_0000_0000

  datatype Option<+T> = None | Some(value: T)

  /** The outcome of an operation that may fail; works with `:-`. */
  datatype Result<+T, +E> = Success(value: T) | Failure(error: E) {
    predicate IsFailure() { Failure? }
    function PropagateFailure<U>(): Result<U, E>
      requires Failure?
    {
      Failure(error)
    }
    function Extract(): T
      requires Success?
    {
      value
    }
  }

  /** The outcome of a check that carries no value; works with `:-`. */
  datatype Outcome<+E> = Pass | Fail(error: E) {
    predicate IsFailure() { Fail? }
    function PropagateFailure<U>(): Result<U, E>
      requires Fail?
    {
      Failure(error)
    }
    /** This check, then the next one: the first failure wins, as in a chain of `?`. */
    function Then(next: Outcome<E>): Outcome<E> {
      if Fail? then this else next
    }
  }

  function Zeros(n: nat): (b: Bytes)
    ensures |b| == n
  {
    seq(n, _ => 0)
  }

  /** The bytes of an ASCII domain tag. */
  function Ascii(text: string): (b: Bytes)
    ensures |b| == |text|
    ensures forall i :: 0 <= i < |text| && text[i] as int < 256 ==> b[i] as int == text[i] as int
  {
    seq(|text|, i requires 0 <= i < |text| => if text[i] as int < 256 then text[i] as int as byte else 0)
  }

  // ---------------------------------------------------------------- big-endian integers

  function Pow256(width: nat): (p: nat)
    ensures p > 0
  {
    if width == 0 then 1 else 256 * Pow256(width - 1)
  }

  /** The unsigned value of a big-endian byte string. */
  function FromBE(b: Bytes): nat {
    if b == [] then 0 else FromBE(b[..|b| - 1]) * 256 + b[|b| - 1] as int
  }

  /** `value` as exactly `width` big-endian bytes. */
  function ToBE(value: nat, width: nat): (b: Bytes)
    ensures |b| == width
  {
    if width == 0 then [] else ToBE(value / 256, width - 1) + [(value % 256) as byte]
  }

  lemma {:induction false} FromBEBound(b: Bytes)
    ensures FromBE(b) < Pow256(|b|)
  {
    if b != [] {
      FromBEBound(b[..|b| - 1]);
    }
  }

  lemma {:induction false} FromToBE(value: nat, width: nat)
    requires value < Pow256(width)
    ensures FromBE(ToBE(value, width)) == value
  {
    if width > 0 {
      FromToBE(value / 256, width - 1);
      assert ToBE(value, width)[..width - 1] == ToBE(value / 256, width - 1);
    }
  }

  lemma {:induction false} ToFromBE(b: Bytes)
    ensures ToBE(FromBE(b), |b|) == b
  {
    if b != [] {
      ToFromBE(b[..|b| - 1]);
      assert b == b[..|b| - 1] + [b[|b| - 1]];
    }
  }

  function U16(value: u16): (b: Bytes) ensures |b| == 2 { ToBE(value, 2) }
  function U32(value: u32): (b: Bytes) ensures |b| == 4 { ToBE(value, 4) }
  function U64(value: u64): (b: Bytes8) { ToBE(value, 8) }

  lemma Widths()
    ensures Pow256(1) == 0x100 && Pow256(2) == 0x1_0000 && Pow256(4) == 0x1_0000_0000
    ensures Pow256(8) == 0x1_0000_0000_0000_0000
  {
    assert Pow256(3) == 0x100_0000;
    assert Pow256(5) == 0x100_0000_0000;
    assert Pow256(6) == 0x1_0000_0000_0000;
    assert Pow256(7) == 0x100_0000_0000_0000;
  }

  /** Fixed-width integers are injective, so a field of a hashed frame determines its value. */
  lemma U64Injective(a: u64, b: u64)
    requires U64(a) == U64(b)
    ensures a == b
  {
    Widths();
    FromToBE(a, 8);
    FromToBE(b, 8);
  }

  // ---------------------------------------------------------------- concatenation

  lemma Assoc(a: Bytes, x: Bytes, t: Bytes)
    ensures (a + x) + t == a + (x + t)
  {
  }

  /** Moves a tail past four leading chunks of a right-nested concatenation. */
  lemma Push(a: Bytes, b: Bytes, c: Bytes, d: Bytes, x: Bytes, t: Bytes)
    ensures (a + (b + (c + (d + x)))) + t == a + (b + (c + (d + (x + t))))
  {
    Assoc(d, x, t);
    Assoc(c, d + x, t);
    Assoc(b, c + (d + x), t);
    Assoc(a, b + (c + (d + x)), t);
  }

  /** Frames whose first fields have equal length split uniquely. */
  lemma Split(a: Bytes, s: Bytes, b: Bytes, t: Bytes)
    requires a + s == b + t && |a| == |b|
    ensures a == b && s == t
  {
    assert a == (a + s)[..|a|] && b == (b + t)[..|b|];
    assert s == (a + s)[|a|..] && t == (b + t)[|b|..];
  }

  // ---------------------------------------------------------------- collisions

  /** No two different members of `inputs` hash to the same digest. */
  ghost predicate CollisionFree(hash: Bytes -> Bytes32, inputs: set<Bytes>) {
    forall x, y :: x in inputs && y in inputs && hash(x) == hash(y) ==> x == y
  }

  lemma NoCollision(hash: Bytes -> Bytes32, inputs: set<Bytes>, x: Bytes, y: Bytes)
    requires CollisionFree(hash, inputs) && x in inputs && y in inputs && hash(x) == hash(y)
    ensures x == y
  {
  }

  lemma FewerInputs(hash: Bytes -> Bytes32, inputs: set<Bytes>, fewer: set<Bytes>)
    requires CollisionFree(hash, inputs) && fewer <= inputs
    ensures CollisionFree(hash, fewer)
  {
  }
}
