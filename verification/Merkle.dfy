/** The duplicate-last Merkle tree of a ledger: the root, the proofs built for it, and the verifier. */
module Merkle {
  import opened ByteStrings
  import opened Protocol
  import opened Encoding

  const LEDGER_LEAF_DOMAIN: Bytes := Ascii("XHUB_LEDGER_LEAF_V3_6")
  const LEDGER_NODE_DOMAIN: Bytes := Ascii("XHUB_LEDGER_NODE_V3_6")
  const LEDGER_EMPTY_DOMAIN: Bytes := Ascii("XHUB_LEDGER_EMPTY_V3_6")

  function EmptyRoot(c: Crypto): Bytes32 {
    c.sha256(LEDGER_EMPTY_DOMAIN)
  }

  function LeafPreimage(entryHash: Bytes32): Bytes {
    LEDGER_LEAF_DOMAIN + entryHash
  }

  function LeafHash(c: Crypto, entryHash: Bytes32): Bytes32 {
    c.sha256(LeafPreimage(entryHash))
  }

  function NodePreimage(left: Bytes32, right: Bytes32): Bytes {
    LEDGER_NODE_DOMAIN + (left + right)
  }

  function NodeHash(c: Crypto, left: Bytes32, right: Bytes32): Bytes32 {
    c.sha256(NodePreimage(left, right))
  }

  lemma NodePreimageInjective(a: Bytes32, b: Bytes32, x: Bytes32, y: Bytes32)
    requires NodePreimage(a, b) == NodePreimage(x, y)
    ensures a == x && b == y
  {
    Split(LEDGER_NODE_DOMAIN, a + b, LEDGER_NODE_DOMAIN, x + y);
    Split(a, b, x, y);
  }

  // ---------------------------------------------------------------- the tree, level by level

  /** A level with its last node repeated when the count is odd. */
  function Padded<T>(level: seq<T>): (p: seq<T>)
    ensures |p| % 2 == 0
  {
    if |level| % 2 == 1 then level + [level[|level| - 1]] else level
  }

  /** One node per adjacent pair of an even level. */
  function Pairs<T>(node: (T, T) -> T, level: seq<T>): (p: seq<T>)
    requires |level| % 2 == 0
    ensures |p| == |level| / 2
    ensures forall i :: 0 <= i < |p| ==> p[i] == node(level[2 * i], level[2 * i + 1])
  {
    seq(|level| / 2, i requires 0 <= i < |level| / 2 => node(level[2 * i], level[2 * i + 1]))
  }

  function Parents<T>(node: (T, T) -> T, level: seq<T>): (p: seq<T>)
    ensures |p| == (|level| + 1) / 2
  {
    Pairs(node, Padded(level))
  }

  /** The two padded children of the parent above position `k`. */
  function PairAt<T>(level: seq<T>, k: nat): (T, T)
    requires k < |level|
  {
    (Padded(level)[2 * (k / 2)], Padded(level)[2 * (k / 2) + 1])
  }

  lemma ParentAt<T>(node: (T, T) -> T, level: seq<T>, k: nat)
    requires k < |level|
    ensures Parents(node, level)[k / 2] == node(PairAt(level, k).0, PairAt(level, k).1)
    ensures level[k] == if k % 2 == 0 then PairAt(level, k).0 else PairAt(level, k).1
  {
  }

  function Root<T>(node: (T, T) -> T, level: seq<T>): T
    requires level != []
    decreases |level|
  {
    if |level| == 1 then level[0] else Root(node, Parents(node, level))
  }

  datatype SiblingSide = Right | Left

  datatype Step<T> = Step(side: SiblingSide, sibling: T)

  type MerkleStep = Step<Bytes32>

  datatype MerkleProof = MerkleProof(leafIndex: u32, leafCount: u32, steps: seq<MerkleStep>)

  function SideFor(cursor: nat): SiblingSide {
    if cursor % 2 == 0 then Right else Left
  }

  function StepAt<T>(level: seq<T>, cursor: nat): Step<T>
    requires cursor < |level|
  {
    var p := Padded(level);
    if cursor % 2 == 1 then Step(Left, p[cursor - 1]) else Step(Right, p[cursor + 1])
  }

  /** The siblings met from leaf `cursor` to the root. */
  function Path<T>(node: (T, T) -> T, level: seq<T>, cursor: nat): seq<Step<T>>
    requires cursor < |level|
    decreases |level|
  {
    if |level| == 1 then [] else [StepAt(level, cursor)] + Path(node, Parents(node, level), cursor / 2)
  }

  /** The two children a proof step joins, left first. */
  function Children<T>(step: Step<T>, current: T): (T, T) {
    match step.side
    case Left => (step.sibling, current)
    case Right => (current, step.sibling)
  }

  function Join<T>(node: (T, T) -> T, step: Step<T>, current: T): T {
    node(Children(step, current).0, Children(step, current).1)
  }

  /** The verifier's walk: checks each step's side against the cursor and the width that is left. */
  function Walk<T>(node: (T, T) -> T, cursor: nat, width: nat, current: T, steps: seq<Step<T>>)
    : Result<T, ProtocolError>
    decreases |steps|
  {
    if steps == [] then
      if width != 1 then Failure(MerkleDirection) else Success(current)
    else if width <= 1 || steps[0].side != SideFor(cursor) then Failure(MerkleDirection)
    else Walk(node, cursor / 2, (width + 1) / 2, Join(node, steps[0], current), steps[1..])
  }

  lemma PathUnfolds<T>(node: (T, T) -> T, level: seq<T>, cursor: nat)
    requires cursor < |level| && |level| > 1
    ensures Path(node, level, cursor) == [StepAt(level, cursor)] + Path(node, Parents(node, level), cursor / 2)
    ensures Path(node, level, cursor)[1..] == Path(node, Parents(node, level), cursor / 2)
  {
  }

  lemma WalkUnfolds<T>(node: (T, T) -> T, cursor: nat, width: nat, current: T, steps: seq<Step<T>>)
    requires width > 1 && Walk(node, cursor, width, current, steps).Success?
    ensures steps != [] && steps[0].side == SideFor(cursor)
    ensures Walk(node, cursor, width, current, steps) ==
            Walk(node, cursor / 2, (width + 1) / 2, Join(node, steps[0], current), steps[1..])
  {
  }

  /** The node hash as a function of the two children. */
  function Node(c: Crypto): (Bytes32, Bytes32) -> Bytes32 {
    (left: Bytes32, right: Bytes32) => NodeHash(c, left, right)
  }

  function MerkleRootOf(c: Crypto, leaves: seq<Bytes32>): Bytes32 {
    if leaves == [] then EmptyRoot(c) else Root(Node(c), leaves)
  }

  function CalculateRootOf(c: Crypto, p: MerkleProof, leaf: Bytes32): Result<Bytes32, ProtocolError> {
    if p.leafCount == 0 || p.leafIndex >= p.leafCount then Failure(MerkleIndex)
    else Walk(Node(c), p.leafIndex, p.leafCount, leaf, p.steps)
  }

  // ---------------------------------------------------------------- the loops of the program

  method MerkleRoot(c: Crypto, leaves: seq<Bytes32>) returns (root: Bytes32)
    ensures root == MerkleRootOf(c, leaves)
  {
    if leaves == [] {
      return EmptyRoot(c);
    }
    var level := leaves;
    while |level| > 1
      invariant level != [] && Root(Node(c), level) == Root(Node(c), leaves)
      decreases |level|
    {
      ghost var before := level;
      if |level| % 2 == 1 {
        level := level + [level[|level| - 1]];
      }
      level := Pairs(Node(c), level);
      assert level == Parents(Node(c), before);
    }
    return level[0];
  }

  method Build(c: Crypto, leaves: seq<Bytes32>, index: nat) returns (r: Result<MerkleProof, ProtocolError>)
    ensures index >= |leaves| || |leaves| >= 0x1_0000_0000 ==> r == Failure(MerkleIndex)
    ensures index < |leaves| < 0x1_0000_0000 ==>
              r == Success(MerkleProof(index, |leaves|, Path(Node(c), leaves, index)))
  {
    if leaves == [] || index >= |leaves| {
      return Failure(MerkleIndex);
    }
    if index >= 0x1_0000_0000 || |leaves| >= 0x1_0000_0000 {
      return Failure(MerkleIndex);
    }
    var steps := BuildSteps(Node(c), leaves, index);
    return Success(MerkleProof(index, |leaves|, steps));
  }

  /** The loop of `MerkleProof::build`. */
  method BuildSteps(node: (Bytes32, Bytes32) -> Bytes32, leaves: seq<Bytes32>, index: nat)
    returns (steps: seq<MerkleStep>)
    requires index < |leaves|
    ensures steps == Path(node, leaves, index)
  {
    var cursor: nat := index;
    var level := leaves;
    steps := [];
    ghost var target := Path(node, leaves, index);
    while |level| > 1
      invariant cursor < |level|
      invariant steps + Path(node, level, cursor) == target
      decreases |level|
    {
      ghost var before := level;
      ghost var path := Path(node, level, cursor);
      PathUnfolds(node, level, cursor);
      var step;
      level, step := PadAndPick(level, cursor);
      ExtendPath(steps, step, path);
      steps := steps + [step];
      level := Pairs(node, level);
      assert level == Parents(node, before);
      cursor := cursor / 2;
    }
    assert steps == steps + Path(node, level, cursor);
  }

  /** Pads a level and picks the sibling of `cursor` in it. */
  method PadAndPick(level: seq<Bytes32>, cursor: nat) returns (padded: seq<Bytes32>, step: MerkleStep)
    requires cursor < |level|
    ensures padded == Padded(level) && step == StepAt(level, cursor)
  {
    padded := level;
    if |padded| % 2 == 1 {
      padded := padded + [padded[|padded| - 1]];
    }
    var isRight := cursor % 2 != 0;
    var siblingIndex := if isRight then cursor - 1 else cursor + 1;
    step := Step(if isRight then Left else Right, padded[siblingIndex]);
  }

  lemma ExtendPath(steps: seq<MerkleStep>, step: MerkleStep, path: seq<MerkleStep>)
    requires path != [] && path[0] == step
    ensures (steps + [step]) + path[1..] == steps + path
  {
  }

  method CalculateRoot(c: Crypto, p: MerkleProof, leaf: Bytes32) returns (r: Result<Bytes32, ProtocolError>)
    ensures r == CalculateRootOf(c, p, leaf)
  {
    if p.leafCount == 0 || p.leafIndex >= p.leafCount {
      return Failure(MerkleIndex);
    }
    var cursor: nat := p.leafIndex;
    var width: nat := p.leafCount;
    var current: Bytes32 := leaf;
    var i := 0;
    while i < |p.steps|
      invariant 0 <= i <= |p.steps|
      invariant Walk(Node(c), cursor, width, current, p.steps[i..]) == CalculateRootOf(c, p, leaf)
    {
      var step := p.steps[i];
      assert p.steps[i..][0] == step && p.steps[i..][1..] == p.steps[i + 1..];
      if width <= 1 {
        return Failure(MerkleDirection);
      }
      var expected := if cursor % 2 == 0 then Right else Left;
      if step.side != expected {
        return Failure(MerkleDirection);
      }
      match step.side {
        case Left => current := NodeHash(c, step.sibling, current);
        case Right => current := NodeHash(c, current, step.sibling);
      }
      cursor := cursor / 2;
      width := (width + 1) / 2;
      i := i + 1;
    }
    if width != 1 {
      return Failure(MerkleDirection);
    }
    return Success(current);
  }

  method Verify(c: Crypto, p: MerkleProof, leaf: Bytes32, expectedRoot: Bytes32) returns (r: Check)
    ensures r.Pass? <==> CalculateRootOf(c, p, leaf) == Success(expectedRoot)
    ensures CalculateRootOf(c, p, leaf).Success? && CalculateRootOf(c, p, leaf).value != expectedRoot ==>
              r == Fail(ProtocolError.MerkleRoot)
    ensures CalculateRootOf(c, p, leaf).Failure? ==> r == Fail(CalculateRootOf(c, p, leaf).error)
  {
    var root := CalculateRoot(c, p, leaf);
    match root
    case Failure(error) => return Fail(error);
    case Success(value) => return if value == expectedRoot then Pass else Fail(ProtocolError.MerkleRoot);
  }

  // ---------------------------------------------------------------- completeness

  lemma StepJoinsPair<T>(level: seq<T>, cursor: nat)
    requires cursor < |level|
    ensures StepAt(level, cursor).side == SideFor(cursor)
    ensures Children(StepAt(level, cursor), level[cursor]) == PairAt(level, cursor)
  {
  }

  /** The proof built for a leaf recomputes exactly the root, whatever the shape of the tree. */
  lemma {:induction false} BuiltProofVerifies<T>(node: (T, T) -> T, level: seq<T>, cursor: nat)
    requires cursor < |level|
    ensures Walk(node, cursor, |level|, level[cursor], Path(node, level, cursor)) == Success(Root(node, level))
    decreases |level|
  {
    if |level| > 1 {
      BuiltProofVerifies(node, Parents(node, level), cursor / 2);
      PathUnfolds(node, level, cursor);
      StepJoinsPair(level, cursor);
      ParentAt(node, level, cursor);
    }
  }

  function Pow2(n: nat): nat {
    if n == 0 then 1 else 2 * Pow2(n - 1)
  }

  /** How often a count halves, rounding up, before it reaches one. */
  function Height(count: nat): nat {
    if count <= 1 then 0 else 1 + Height((count + 1) / 2)
  }

  lemma {:induction false} PathHeight<T>(node: (T, T) -> T, level: seq<T>, cursor: nat)
    requires cursor < |level|
    ensures |Path(node, level, cursor)| == Height(|level|)
    decreases |level|
  {
    if |level| > 1 {
      PathHeight(node, Parents(node, level), cursor / 2);
      PathUnfolds(node, level, cursor);
    }
  }

  lemma {:induction false} HeightIsLog(count: nat)
    requires count > 0
    ensures Pow2(Height(count)) >= count
    ensures count > 1 ==> Pow2(Height(count) - 1) < count
  {
    if count > 1 {
      HeightIsLog((count + 1) / 2);
    }
  }

  /** A proof has exactly ceil(log2 n) steps: the least number that doubles up to the leaf count. */
  lemma ProofLength<T>(node: (T, T) -> T, level: seq<T>, cursor: nat)
    requires cursor < |level|
    ensures Pow2(|Path(node, level, cursor)|) >= |level|
    ensures |Path(node, level, cursor)| > 0 ==> Pow2(|Path(node, level, cursor)| - 1) < |level|
  {
    PathHeight(node, level, cursor);
    HeightIsLog(|level|);
  }

  // ---------------------------------------------------------------- soundness and uniqueness

  /** Every pair of children joined to build the tree over `level`. */
  ghost function TreePairs<T>(node: (T, T) -> T, level: seq<T>): set<(T, T)>
    decreases |level|
  {
    if |level| <= 1 then {} else LevelPairs(Padded(level)) + TreePairs(node, Parents(node, level))
  }

  ghost function LevelPairs<T>(padded: seq<T>): set<(T, T)> {
    set i | 0 <= i < |padded| / 2 :: (padded[2 * i], padded[2 * i + 1])
  }

  lemma PairInLevel<T>(level: seq<T>, k: nat)
    requires k < |level|
    ensures PairAt(level, k) in LevelPairs(Padded(level))
  {
    assert 0 <= k / 2 < |Padded(level)| / 2;
  }

  /** Every pair of children the verifier joins on its walk. */
  ghost function WalkPairs<T>(node: (T, T) -> T, current: T, steps: seq<Step<T>>): set<(T, T)>
    decreases |steps|
  {
    if steps == [] then {} else
      {Children(steps[0], current)} + WalkPairs(node, Join(node, steps[0], current), steps[1..])
  }

  /** No two different pairs of children share a parent. */
  ghost predicate Distinguishes<T(!new)>(node: (T, T) -> T, pairs: set<(T, T)>) {
    forall p, q :: p in pairs && q in pairs && node(p.0, p.1) == node(q.0, q.1) ==> p == q
  }

  lemma PairInTree<T>(node: (T, T) -> T, level: seq<T>, k: nat)
    requires k < |level| && |level| > 1
    ensures PairAt(level, k) in TreePairs(node, level)
    ensures TreePairs(node, Parents(node, level)) <= TreePairs(node, level)
  {
    PairInLevel(level, k);
  }

  lemma {:induction false} WalkIsUnique<T(!new)>(node: (T, T) -> T, level: seq<T>, cursor: nat, leaf: T,
                                                 steps: seq<Step<T>>)
    requires cursor < |level|
    requires Walk(node, cursor, |level|, leaf, steps) == Success(Root(node, level))
    requires Distinguishes(node, TreePairs(node, level) + WalkPairs(node, leaf, steps))
    ensures leaf == level[cursor]
    ensures steps == Path(node, level, cursor)
    decreases |level|
  {
    if |level| > 1 {
      WalkUnfolds(node, cursor, |level|, leaf, steps);
      PairInTree(node, level, cursor);
      WalkIsUnique(node, Parents(node, level), cursor / 2, Join(node, steps[0], leaf), steps[1..]);
      ParentAt(node, level, cursor);
      assert Children(steps[0], leaf) in WalkPairs(node, leaf, steps);
      assert Children(steps[0], leaf) == PairAt(level, cursor);
      PathUnfolds(node, level, cursor);
      StepJoinsPair(level, cursor);
    }
  }

  lemma {:induction false} RootIsInjective<T(!new)>(node: (T, T) -> T, a: seq<T>, b: seq<T>)
    requires |a| == |b| > 0 && Root(node, a) == Root(node, b)
    requires Distinguishes(node, TreePairs(node, a) + TreePairs(node, b))
    ensures a == b
    decreases |a|
  {
    if |a| > 1 {
      PairInTree(node, a, 0);
      PairInTree(node, b, 0);
      RootIsInjective(node, Parents(node, a), Parents(node, b));
      forall k | 0 <= k < |a|
        ensures a[k] == b[k]
      {
        PairInTree(node, a, k);
        PairInTree(node, b, k);
        ParentAt(node, a, k);
        ParentAt(node, b, k);
      }
    }
  }

  /** The strings SHA-256 is given for a set of children pairs. */
  ghost function NodeInputs(pairs: set<(Bytes32, Bytes32)>): set<Bytes> {
    set p | p in pairs :: NodePreimage(p.0, p.1)
  }

  lemma CollisionFreeDistinguishes(c: Crypto, pairs: set<(Bytes32, Bytes32)>)
    requires CollisionFree(c.sha256, NodeInputs(pairs))
    ensures Distinguishes(Node(c), pairs)
  {
    forall p, q | p in pairs && q in pairs && Node(c)(p.0, p.1) == Node(c)(q.0, q.1)
      ensures p == q
    {
      assert NodePreimage(p.0, p.1) in NodeInputs(pairs) && NodePreimage(q.0, q.1) in NodeInputs(pairs);
      NodePreimageInjective(p.0, p.1, q.0, q.1);
    }
  }

  /** Every string hashed to build a ledger's tree. */
  ghost function TreeInputs(c: Crypto, leaves: seq<Bytes32>): set<Bytes> {
    NodeInputs(TreePairs(Node(c), leaves))
  }

  ghost function WalkInputs(c: Crypto, leaf: Bytes32, steps: seq<MerkleStep>): set<Bytes> {
    NodeInputs(WalkPairs(Node(c), leaf, steps))
  }

  /** Under the root of a list of `leafCount` leaves the verifier accepts exactly the built proof for the list's
      own leaf, unless two of the strings hashed on the way collide. */
  lemma AcceptedIffBuilt(c: Crypto, leaves: seq<Bytes32>, p: MerkleProof, leaf: Bytes32)
    requires 0 < |leaves| == p.leafCount
    requires CollisionFree(c.sha256, TreeInputs(c, leaves) + WalkInputs(c, leaf, p.steps))
    ensures CalculateRootOf(c, p, leaf) == Success(MerkleRootOf(c, leaves)) <==>
            && p.leafIndex < p.leafCount
            && leaf == leaves[p.leafIndex]
            && p.steps == Path(Node(c), leaves, p.leafIndex)
  {
    if p.leafIndex < p.leafCount {
      BuiltProofVerifies(Node(c), leaves, p.leafIndex);
      if CalculateRootOf(c, p, leaf) == Success(MerkleRootOf(c, leaves)) {
        var pairs := TreePairs(Node(c), leaves) + WalkPairs(Node(c), leaf, p.steps);
        assert NodeInputs(pairs) == TreeInputs(c, leaves) + WalkInputs(c, leaf, p.steps);
        CollisionFreeDistinguishes(c, pairs);
        WalkIsUnique(Node(c), leaves, p.leafIndex, leaf, p.steps);
      }
    }
  }

  /** Lists of equal length with equal roots are equal, or two strings hashed in the trees collide. */
  lemma RootInjective(c: Crypto, a: seq<Bytes32>, b: seq<Bytes32>)
    requires |a| == |b| && MerkleRootOf(c, a) == MerkleRootOf(c, b)
    requires CollisionFree(c.sha256, TreeInputs(c, a) + TreeInputs(c, b))
    ensures a == b
  {
    if a != [] {
      var pairs := TreePairs(Node(c), a) + TreePairs(Node(c), b);
      assert NodeInputs(pairs) == TreeInputs(c, a) + TreeInputs(c, b);
      CollisionFreeDistinguishes(c, pairs);
      RootIsInjective(Node(c), a, b);
    }
  }

  /** Without the length the root does not determine the list: repeating an odd last leaf changes nothing, so a
      checkpoint has to commit to the entry count as well. */
  lemma RootIgnoresRepeatedLast(c: Crypto, leaves: seq<Bytes32>)
    requires |leaves| % 2 == 1 && |leaves| > 1
    ensures MerkleRootOf(c, leaves) == MerkleRootOf(c, leaves + [leaves[|leaves| - 1]])
  {
    var longer := leaves + [leaves[|leaves| - 1]];
    assert Padded(leaves) == longer == Padded(longer);
  }

  // ---------------------------------------------------------------- the proof on the wire

  function SideByte(side: SiblingSide): byte {
    match side case Right => 0 case Left => 1
  }

  function EncodeSteps(steps: seq<MerkleStep>): Bytes {
    if steps == [] then [] else ([SideByte(steps[0].side)] + steps[0].sibling) + EncodeSteps(steps[1..])
  }

  function EncodeProof(p: MerkleProof): Bytes
    requires |p.steps| < 0x1_0000_0000
  {
    U32(p.leafIndex) + (U32(p.leafCount) + (U32(|p.steps|) + EncodeSteps(p.steps)))
  }

  function ParseStep(s0: Bytes): Parsed<MerkleStep> {
    var (tag, s1) :- ReadU8(s0);
    if tag > 1 then Bad(InvalidBool(tag)) else
    var (sibling, s2) :- Read32(s1);
    Ok(Step(if tag == 0 then Right else Left, sibling), s2)
  }

  function ParseSteps(s0: Bytes, count: nat): Parsed<seq<MerkleStep>> {
    if count == 0 then Ok([], s0) else
    var (step, s1) :- ParseStep(s0);
    var (others, s2) :- ParseSteps(s1, count - 1);
    Ok([step] + others, s2)
  }

  function ParseProof(s0: Bytes): Parsed<MerkleProof> {
    var (index, s1) :- ReadU32(s0);
    var (leafCount, s2) :- ReadU32(s1);
    var (stepCount, s3) :- ReadU32(s2);
    if stepCount > 64 then Bad(LengthLimit(stepCount, 64)) else
    var (steps, s4) :- ParseSteps(s3, stepCount);
    Ok(MerkleProof(index, leafCount, steps), s4)
  }

  lemma {:induction false} StepsRoundTrip(steps: seq<MerkleStep>, tail: Bytes)
    ensures ParseSteps(EncodeSteps(steps) + tail, |steps|) == Ok(steps, tail)
  {
    if steps == [] {
      assert EncodeSteps(steps) + tail == tail;
    } else {
      StepsRoundTrip(steps[1..], tail);
      var t := EncodeSteps(steps[1..]) + tail;
      Assoc([SideByte(steps[0].side)] + steps[0].sibling, EncodeSteps(steps[1..]), tail);
      Assoc([SideByte(steps[0].side)], steps[0].sibling, t);
      Read32RoundTrip(steps[0].sibling, t);
      TakesWhole([SideByte(steps[0].side)], steps[0].sibling + t);
      assert steps == [steps[0]] + steps[1..];
    }
  }

  lemma ProofRoundTrip(p: MerkleProof, tail: Bytes)
    requires |p.steps| <= 64
    ensures ParseProof(EncodeProof(p) + tail) == Ok(p, tail)
  {
    var t := EncodeSteps(p.steps) + tail;
    StepsRoundTrip(p.steps, tail);
    U32RoundTrip(|p.steps|, t);
    U32RoundTrip(p.leafCount, U32(|p.steps|) + t);
    U32RoundTrip(p.leafIndex, U32(p.leafCount) + (U32(|p.steps|) + t));
    ProofTail(p, tail);
  }

  lemma ProofTail(p: MerkleProof, tail: Bytes)
    requires |p.steps| < 0x1_0000_0000
    ensures EncodeProof(p) + tail ==
            U32(p.leafIndex) + (U32(p.leafCount) + (U32(|p.steps|) + (EncodeSteps(p.steps) + tail)))
  {
    Assoc(U32(|p.steps|), EncodeSteps(p.steps), tail);
    Assoc(U32(p.leafCount), U32(|p.steps|) + EncodeSteps(p.steps), tail);
    Assoc(U32(p.leafIndex), U32(p.leafCount) + (U32(|p.steps|) + EncodeSteps(p.steps)), tail);
  }

  lemma {:induction false} StepsCanonical(s: Bytes, count: nat)
    requires ParseSteps(s, count).Ok?
    ensures |ParseSteps(s, count).value| == count
    ensures s == EncodeSteps(ParseSteps(s, count).value) + ParseSteps(s, count).rest
  {
    if count == 0 {
      assert s == [] + s;
    } else {
      var first := ParseStep(s);
      var others := ParseSteps(first.rest, count - 1);
      StepsCanonical(first.rest, count - 1);
      Read32Canonical(s[1..]);
      assert s == [SideByte(first.value.side)] + (first.value.sibling + first.rest);
      Assoc([SideByte(first.value.side)], first.value.sibling, first.rest);
      Assoc([SideByte(first.value.side)] + first.value.sibling, EncodeSteps(others.value), others.rest);
      assert ([first.value] + others.value)[1..] == others.value;
    }
  }

  lemma ProofCanonical(s: Bytes)
    requires ParseProof(s).Ok?
    ensures |ParseProof(s).value.steps| <= 64
    ensures s == EncodeProof(ParseProof(s).value) + ParseProof(s).rest
  {
    U32Canonical(s);
    var s1 := ReadU32(s).rest;
    U32Canonical(s1);
    var s2 := ReadU32(s1).rest;
    U32Canonical(s2);
    StepsCanonical(ReadU32(s2).rest, ReadU32(s2).value);
    ProofTail(ParseProof(s).value, ParseProof(s).rest);
  }

  /** A proof for any list the program can index fits the decoder's limit of 64 steps. */
  lemma BuiltProofsFitTheWire<T>(node: (T, T) -> T, leaves: seq<T>, index: nat)
    requires index < |leaves| < 0x1_0000_0000
    ensures |Path(node, leaves, index)| <= 32
  {
    PathHeight(node, leaves, index);
    HeightFits(|leaves|);
  }

  lemma HeightFits(count: nat)
    requires 0 < count < 0x1_0000_0000
    ensures Height(count) <= 32
  {
    HeightIsLog(count);
    FewSteps(if count > 1 then Height(count) else 0, count);
  }

  lemma FewSteps(steps: nat, count: nat)
    requires steps > 0 ==> Pow2(steps - 1) < count
    requires count < 0x1_0000_0000
    ensures steps <= 32
  {
    Pow2Of32();
    if steps > 32 {
      Pow2Grows(32, steps - 1);
    }
  }

  lemma Pow2Of32()
    ensures Pow2(32) == 0x1_0000_0000
  {
    assert Pow2(8) == 0x100;
    assert Pow2(16) == 0x1_0000;
    assert Pow2(24) == 0x100_0000;
  }

  lemma {:induction false} Pow2Grows(a: nat, b: nat)
    requires a <= b
    ensures Pow2(a) <= Pow2(b)
    decreases b
  {
    if a < b {
      Pow2Grows(a, b - 1);
    }
  }
}
