/** Reading a puzzle's output: CLVM nodes, condition lists, and the checks made of them. */
module Clvm {
  import opened ByteStrings

  const AGG_SIG_UNSAFE: u64 := 49
  const CREATE_COIN: u64 := 51
  const ASSERT_MY_COIN_ID: u64 := 70
  const ASSERT_MY_AMOUNT: u64 := 73
  const ASSERT_MY_BIRTH_HEIGHT: u64 := 75
  const ASSERT_HEIGHT_RELATIVE: u64 := 82
  const ASSERT_HEIGHT_ABSOLUTE: u64 := 83
  const ASSERT_BEFORE_HEIGHT_ABSOLUTE: u64 := 87

  datatype Node = Atom(bytes: Bytes) | Pair(first: Node, rest: Node)

  /** A condition as the puzzle wrote it. The program keeps only the folded opcode, and only looks at that. */
  datatype Condition = Condition(opcodeAtom: Bytes, args: seq<Bytes>) {
    function Opcode(): u64 {
      AtomU64(opcodeAtom)
    }
  }

  type Failed = string

  // ---------------------------------------------------------------- lists and atoms

  /** The items of a proper list: pairs ending in the empty atom. */
  function ListOf(node: Node): Option<seq<Node>> {
    match node
    case Atom(bytes) => if bytes == [] then Some([]) else None
    case Pair(first, rest) =>
      match ListOf(rest)
      case None => None
      case Some(items) => Some([first] + items)
  }

  method ListNodes(root: Node) returns (r: Option<seq<Node>>)
    ensures r == ListOf(root)
  {
    var items: seq<Node> := [];
    var node := root;
    assert ListOf(root).Some? ==> items + ListOf(root).value == ListOf(root).value;
    while true
      invariant ListOf(root) == (if ListOf(node).None? then None else Some(items + ListOf(node).value))
      decreases node
    {
      match node
      case Pair(first, rest) =>
        assert ListOf(rest).Some? ==> items + ([first] + ListOf(rest).value) == (items + [first]) + ListOf(rest).value;
        items := items + [first];
        node := rest;
      case Atom(bytes) =>
        if bytes == [] {
          assert items + [] == items;
          return Some(items);
        }
        return None;
    }
  }

  /** An integer atom, as the 64-bit fold reads it: big-endian, the high bytes of a long atom shifted out. */
  function AtomU64(bytes: Bytes): u64 {
    if bytes == [] then 0
    else (AtomU64(bytes[..|bytes| - 1]) * 256 + bytes[|bytes| - 1] as int) % 0x1_0000_0000_0000_0000
  }

  lemma ModuloStep(x: nat, d: nat)
    ensures (x % 0x1_0000_0000_0000_0000 * 256 + d) % 0x1_0000_0000_0000_0000 == (x * 256 + d) % 0x1_0000_0000_0000_0000
  {
    var m := 0x1_0000_0000_0000_0000;
    var q, r := x / m, x % m;
    assert x * 256 + d == (r * 256 + d) + m * (q * 256);
    AddMultiple(r * 256 + d, q * 256);
  }

  lemma {:induction false} AddMultiple(x: nat, k: nat)
    ensures (x + 0x1_0000_0000_0000_0000 * k) % 0x1_0000_0000_0000_0000 == x % 0x1_0000_0000_0000_0000
  {
    if k > 0 {
      AddMultiple(x, k - 1);
    }
  }

  lemma {:induction false} AtomIsModulo(bytes: Bytes)
    ensures AtomU64(bytes) == FromBE(bytes) % 0x1_0000_0000_0000_0000
  {
    if bytes != [] {
      AtomIsModulo(bytes[..|bytes| - 1]);
      ModuloStep(FromBE(bytes[..|bytes| - 1]), bytes[|bytes| - 1] as int);
    }
  }

  /** The fold reads an atom's value exactly when the value fits 64 bits; every atom of at most eight bytes does. */
  lemma AtomExactIff(bytes: Bytes)
    ensures AtomU64(bytes) == FromBE(bytes) <==> FromBE(bytes) < 0x1_0000_0000_0000_0000
    ensures |bytes| <= 8 ==> AtomU64(bytes) == FromBE(bytes)
  {
    AtomIsModulo(bytes);
    FromBEBound(bytes);
    Widths();
    if |bytes| <= 8 {
      Pow256Grows(|bytes|, 8);
    }
  }

  lemma {:induction false} Pow256Grows(a: nat, b: nat)
    requires a <= b
    ensures Pow256(a) <= Pow256(b)
    decreases b
  {
    if a < b {
      Pow256Grows(a, b - 1);
    }
  }

  /** A nine-byte atom whose last eight bytes are a number: the fold shifts the leading one out. */
  function LongAtom(v: u64): Bytes {
    [1] + U64(v)
  }

  lemma {:induction false} FromBEPrepend(d: byte, b: Bytes)
    ensures FromBE([d] + b) == d as int * Pow256(|b|) + FromBE(b)
  {
    if b == [] {
      assert [d] + b == [d] && [d][..0] == [];
    } else {
      var n := |b| - 1;
      assert ([d] + b)[..n + 1] == [d] + b[..n];
      FromBEPrepend(d, b[..n]);
    }
  }

  /** Every number has an atom that reads as it and is 2^64 more. */
  lemma LongAtomReadsShort(v: u64)
    ensures AtomU64(LongAtom(v)) == v && FromBE(LongAtom(v)) == 0x1_0000_0000_0000_0000 + v
  {
    Widths();
    FromToBE(v, 8);
    FromBEPrepend(1, U64(v));
    AtomIsModulo(LongAtom(v));
  }

  predicate FitsU64(atom: Bytes) {
    FromBE(atom) < 0x1_0000_0000_0000_0000
  }

  lemma FoldedIsMeantIff(atom: Bytes, v: u64)
    requires AtomU64(atom) == v
    ensures FromBE(atom) == v <==> FitsU64(atom)
    ensures FromBE(atom) >= v && (|atom| <= 8 ==> FitsU64(atom))
  {
    AtomIsModulo(atom);
    AtomExactIff(atom);
  }

  // ---------------------------------------------------------------- condition lists

  function AtomsOf(nodes: seq<Node>): (r: Result<seq<Bytes>, Failed>)
    ensures r.Success? ==> |r.value| == |nodes|
  {
    if nodes == [] then Success([]) else
    var others :- AtomsOf(nodes[1..]);
    if nodes[0].Atom? then Success([nodes[0].bytes] + others) else Failure("atom expected")
  }

  function ConditionOf(node: Node): Result<Condition, Failed> {
    var items := ListOf(node);
    if items.None? then Failure("condition is not a list")
    else if items.value == [] then Failure("condition omitted its opcode")
    else
      var atoms :- AtomsOf(items.value);
      Success(Condition(atoms[0], atoms[1..]))
  }

  function ConditionsOf(nodes: seq<Node>): Result<seq<Condition>, Failed> {
    if nodes == [] then Success([]) else
    var first :- ConditionOf(nodes[0]);
    var others :- ConditionsOf(nodes[1..]);
    Success([first] + others)
  }

  function ReadConditions(root: Node): Result<seq<Condition>, Failed> {
    var items := ListOf(root);
    if items.None? then Failure("puzzle result is not a condition list") else ConditionsOf(items.value)
  }

  // ---------------------------------------------------------------- the checks

  /** The conditions with one opcode, in order. */
  function Conditions(all: seq<Condition>, opcode: u64): seq<Condition> {
    if all == [] then []
    else (if all[0].Opcode() == opcode then [all[0]] else []) + Conditions(all[1..], opcode)
  }

  function RequireU64(all: seq<Condition>, opcode: u64, expected: u64): Outcome<Failed> {
    var matches := Conditions(all, opcode);
    if |matches| != 1 || |matches[0].args| != 1 || AtomU64(matches[0].args[0]) != expected
    then Fail("CLVM condition has an unexpected integer") else Pass
  }

  function RequireBytes(all: seq<Condition>, opcode: u64, expected: Bytes): Outcome<Failed> {
    var matches := Conditions(all, opcode);
    if |matches| != 1 || |matches[0].args| != 1 || matches[0].args[0] != expected
    then Fail("CLVM condition has an unexpected value") else Pass
  }

  /** A condition that creates exactly this coin, as far as the 64-bit reading of the amount can tell. */
  predicate Creates(condition: Condition, puzzleHash: Bytes32, amount: u64) {
    |condition.args| >= 2 && condition.args[0] == puzzleHash && AtomU64(condition.args[1]) == amount
  }

  function RequireCreate(condition: Condition, puzzleHash: Bytes32, amount: u64): Outcome<Failed> {
    if Creates(condition, puzzleHash, amount) then Pass
    else Fail("CLVM CREATE_COIN output does not match the expected settlement")
  }

  function RequireSingleCreate(all: seq<Condition>, puzzleHash: Bytes32, amount: u64): Outcome<Failed> {
    var creates := Conditions(all, CREATE_COIN);
    if |creates| != 1 then Fail("CLVM emitted an unexpected CREATE_COIN count")
    else RequireCreate(creates[0], puzzleHash, amount)
  }

  // ---------------------------------------------------------------- what a list of conditions asks for

  /** The atom is this opcode's one byte. */
  predicate IsOpcode(atom: Bytes, opcode: u64) {
    |atom| == 1 && atom[0] as int == opcode
  }

  /** The conditions named by this opcode's one byte; the checks above look at those whose atom folds to it. */
  function Meant(all: seq<Condition>, opcode: u64): seq<Condition> {
    if all == [] then []
    else (if IsOpcode(all[0].opcodeAtom, opcode) then [all[0]] else []) + Meant(all[1..], opcode)
  }

  /** One assertion of this opcode is made, and it is of this number. */
  predicate Asserts(all: seq<Condition>, opcode: u64, value: nat) {
    var meant := Meant(all, opcode);
    |meant| == 1 && |meant[0].args| == 1 && FromBE(meant[0].args[0]) == value
  }

  datatype Coin = Coin(puzzleHash: Bytes, amount: nat)

  function CreatedCoin(condition: Condition): Coin {
    if |condition.args| < 2 then Coin([], 0) else Coin(condition.args[0], FromBE(condition.args[1]))
  }

  function CoinsOf(creates: seq<Condition>): (coins: seq<Coin>)
    ensures |coins| == |creates|
    ensures forall i :: 0 <= i < |creates| ==> coins[i] == CreatedCoin(creates[i])
  {
    seq(|creates|, i requires 0 <= i < |creates| => CreatedCoin(creates[i]))
  }

  /** The coins a list of conditions creates, in order. */
  function CreatedCoins(all: seq<Condition>): seq<Coin> {
    CoinsOf(Meant(all, CREATE_COIN))
  }

  predicate Named(condition: Condition) {
    |condition.opcodeAtom| == 1
  }

  /** Of the conditions counted for an opcode, those that are really named by it. */
  function OnlyNamed(counted: seq<Condition>): (named: seq<Condition>)
    ensures |named| <= |counted|
  {
    if counted == [] then []
    else (if Named(counted[0]) then [counted[0]] else []) + OnlyNamed(counted[1..])
  }

  lemma OneByteAtom(atom: Bytes)
    ensures |atom| == 1 ==> AtomU64(atom) == atom[0] as int
  {
    if |atom| == 1 {
      assert atom[..0] == [] && AtomU64([]) == 0;
    }
  }

  lemma {:induction false} MeantAreCounted(all: seq<Condition>, opcode: u64)
    ensures Meant(all, opcode) == OnlyNamed(Conditions(all, opcode))
  {
    if all != [] {
      MeantAreCounted(all[1..], opcode);
      OneByteAtom(all[0].opcodeAtom);
      var counted, others := Conditions(all, opcode), Conditions(all[1..], opcode);
      if all[0].Opcode() == opcode {
        assert counted == [all[0]] + others && counted[1..] == others;
      } else {
        assert counted == others && !IsOpcode(all[0].opcodeAtom, opcode);
      }
    }
  }

  lemma {:induction false} AllNamedIff(counted: seq<Condition>)
    ensures |OnlyNamed(counted)| == |counted| <==> forall condition :: condition in counted ==> Named(condition)
    ensures |OnlyNamed(counted)| == |counted| ==> OnlyNamed(counted) == counted
  {
    if counted != [] {
      AllNamedIff(counted[1..]);
      assert counted == [counted[0]] + counted[1..];
    }
  }

  predicate ExactAssertion(condition: Condition) {
    |condition.args| >= 1 && Named(condition) && FitsU64(condition.args[0])
  }

  predicate ExactCreate(condition: Condition) {
    |condition.args| >= 2 && Named(condition) && FitsU64(condition.args[1])
  }

  /** A passed integer check means what it says exactly when its opcode is one byte and the integer fits
      64 bits. */
  lemma RequiredIsAssertedIff(all: seq<Condition>, opcode: u64, expected: u64)
    requires RequireU64(all, opcode, expected).Pass?
    ensures Asserts(all, opcode, expected) <==> ExactAssertion(Conditions(all, opcode)[0])
  {
    MeantAreCounted(all, opcode);
    AllNamedIff(Conditions(all, opcode));
    FoldedIsMeantIff(Conditions(all, opcode)[0].args[0], expected);
  }

  /** A passed check of one output creates exactly that coin exactly when its opcode is one byte and the amount
      fits 64 bits. */
  lemma RequiredIsCreatedIff(all: seq<Condition>, puzzleHash: Bytes32, amount: u64)
    requires RequireSingleCreate(all, puzzleHash, amount).Pass?
    ensures CreatedCoins(all) == [Coin(puzzleHash, amount)] <==> ExactCreate(Conditions(all, CREATE_COIN)[0])
  {
    MeantAreCounted(all, CREATE_COIN);
    AllNamedIff(Conditions(all, CREATE_COIN));
    FoldedIsMeantIff(Conditions(all, CREATE_COIN)[0].args[1], amount);
  }

  /** The condition passes the check for this coin. */
  predicate CountsAs(condition: Condition, coin: Coin) {
    && |coin.puzzleHash| == 32 && coin.amount < 0x1_0000_0000_0000_0000
    && Creates(condition, coin.puzzleHash, coin.amount)
  }

  /** A list of counted outputs creates exactly the coins expected exactly when every opcode is one byte and every
      amount fits 64 bits. */
  lemma CountedAreCreatedIff(all: seq<Condition>, expected: seq<Coin>)
    requires |Conditions(all, CREATE_COIN)| == |expected|
    requires forall i :: 0 <= i < |expected| ==> CountsAs(Conditions(all, CREATE_COIN)[i], expected[i])
    ensures CreatedCoins(all) == expected <==>
            forall i :: 0 <= i < |expected| ==> ExactCreate(Conditions(all, CREATE_COIN)[i])
  {
    var counted := Conditions(all, CREATE_COIN);
    MeantAreCounted(all, CREATE_COIN);
    AllNamedIff(counted);
    forall i | 0 <= i < |expected| ensures CreatedCoin(counted[i]) == expected[i] <==> FitsU64(counted[i].args[1]) {
      assert CountsAs(counted[i], expected[i]);
      FoldedIsMeantIff(counted[i].args[1], expected[i].amount);
    }
    if CreatedCoins(all) == expected {
      forall i | 0 <= i < |expected| ensures ExactCreate(counted[i]) {
        assert CreatedCoins(all)[i] == CreatedCoin(counted[i]);
      }
    }
    if forall i :: 0 <= i < |expected| ==> ExactCreate(counted[i]) {
      assert forall condition :: condition in counted ==> Named(condition);
      assert CoinsOf(counted) == expected;
    }
  }

  /** Two lists of conditions are counted one after the other. */
  lemma {:induction false} ConditionsOfBoth(a: seq<Condition>, b: seq<Condition>, opcode: u64)
    ensures Conditions(a + b, opcode) == Conditions(a, opcode) + Conditions(b, opcode)
  {
    if a == [] {
      assert a + b == b;
    } else {
      ConditionsOfBoth(a[1..], b, opcode);
      assert (a + b)[0] == a[0] && (a + b)[1..] == a[1..] + b;
      var first := if a[0].Opcode() == opcode then [a[0]] else [];
      var rest, others := Conditions(a[1..], opcode), Conditions(b, opcode);
      assert first + (rest + others) == (first + rest) + others;
    }
  }

  lemma {:induction false} ConditionsOfOneOpcode(all: seq<Condition>, opcode: u64, asked: u64)
    requires forall i :: 0 <= i < |all| ==> all[i].Opcode() == opcode
    ensures Conditions(all, asked) == if asked == opcode then all else []
  {
    if all != [] {
      ConditionsOfOneOpcode(all[1..], opcode, asked);
      assert all == [all[0]] + all[1..];
    }
  }

  lemma {:induction false} ConditionsOfNone(all: seq<Condition>, asked: u64)
    requires forall i :: 0 <= i < |all| ==> all[i].Opcode() != asked
    ensures Conditions(all, asked) == []
  {
    if all != [] {
      ConditionsOfNone(all[1..], asked);
    }
  }

  /** A condition with an opcode no other has is the one counted for it. */
  lemma {:induction false} OneOfItsOpcode(all: seq<Condition>, i: nat, opcode: u64)
    requires i < |all| && all[i].Opcode() == opcode
    requires forall j :: 0 <= j < |all| && j != i ==> all[j].Opcode() != opcode
    ensures Conditions(all, opcode) == [all[i]]
    decreases i
  {
    if i == 0 {
      ConditionsOfNone(all[1..], opcode);
    } else {
      OneOfItsOpcode(all[1..], i - 1, opcode);
    }
  }

  lemma {:induction false} NoneNamed(counted: seq<Condition>)
    requires forall i :: 0 <= i < |counted| ==> !Named(counted[i])
    ensures OnlyNamed(counted) == []
  {
    if counted != [] {
      NoneNamed(counted[1..]);
    }
  }

  // ---------------------------------------------------------------- writing conditions

  function OpcodeAtom(opcode: u64): Bytes
    requires opcode < 256
  {
    [opcode as byte]
  }

  lemma OpcodeAtomIs(opcode: u64)
    requires opcode < 256
    ensures AtomU64(OpcodeAtom(opcode)) == opcode && IsOpcode(OpcodeAtom(opcode), opcode)
  {
    OneByteAtom(OpcodeAtom(opcode));
  }

  function Asserting(opcode: u64, atom: Bytes): Condition
    requires opcode < 256
  {
    Condition(OpcodeAtom(opcode), [atom])
  }

  lemma WrittenAtomIs(v: u64, width: nat)
    requires v < Pow256(width)
    ensures AtomU64(ToBE(v, width)) == v && FromBE(ToBE(v, width)) == v
  {
    FromToBE(v, width);
    AtomIsModulo(ToBE(v, width));
  }

  lemma U64AtomIs(v: u64)
    ensures AtomU64(U64(v)) == v && FromBE(U64(v)) == v
  {
    Widths();
    WrittenAtomIs(v, 8);
  }

  /** A proper list of these items. */
  function ListNode(items: seq<Node>): Node {
    if items == [] then Atom([]) else Pair(items[0], ListNode(items[1..]))
  }

  lemma {:induction false} ListNodeReads(items: seq<Node>)
    ensures ListOf(ListNode(items)) == Some(items)
  {
    if items != [] {
      ListNodeReads(items[1..]);
      assert items == [items[0]] + items[1..];
    }
  }

  function AtomNodes(atoms: seq<Bytes>): (nodes: seq<Node>)
    ensures |nodes| == |atoms|
    ensures forall i :: 0 <= i < |atoms| ==> nodes[i] == Atom(atoms[i])
  {
    seq(|atoms|, i requires 0 <= i < |atoms| => Atom(atoms[i]))
  }

  lemma {:induction false} AtomNodesRead(atoms: seq<Bytes>)
    ensures AtomsOf(AtomNodes(atoms)) == Success(atoms)
  {
    if atoms != [] {
      AtomNodesRead(atoms[1..]);
      assert AtomNodes(atoms)[1..] == AtomNodes(atoms[1..]);
      assert atoms == [atoms[0]] + atoms[1..];
    }
  }

  function ConditionNode(condition: Condition): Node {
    ListNode(AtomNodes([condition.opcodeAtom] + condition.args))
  }

  lemma ConditionNodeReads(condition: Condition)
    ensures ConditionOf(ConditionNode(condition)) == Success(condition)
  {
    var atoms := [condition.opcodeAtom] + condition.args;
    ListNodeReads(AtomNodes(atoms));
    AtomNodesRead(atoms);
    assert atoms[1..] == condition.args;
  }

  function ConditionNodes(all: seq<Condition>): (nodes: seq<Node>)
    ensures |nodes| == |all|
    ensures forall i :: 0 <= i < |all| ==> nodes[i] == ConditionNode(all[i])
  {
    seq(|all|, i requires 0 <= i < |all| => ConditionNode(all[i]))
  }

  lemma {:induction false} ConditionNodesRead(all: seq<Condition>)
    ensures ConditionsOf(ConditionNodes(all)) == Success(all)
  {
    if all != [] {
      ConditionNodeReads(all[0]);
      ConditionNodesRead(all[1..]);
      assert ConditionNodes(all)[1..] == ConditionNodes(all[1..]);
      assert all == [all[0]] + all[1..];
    }
  }

  /** Every list of conditions is what some output is read as. */
  lemma EveryListIsRead(all: seq<Condition>)
    ensures ReadConditions(ListNode(ConditionNodes(all))) == Success(all)
  {
    ListNodeReads(ConditionNodes(all));
    ConditionNodesRead(all);
  }
}
