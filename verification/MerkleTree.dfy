/** The duplicate-last tree by height and index: which hash stands where, and which of them a proof names. */
module MerkleTree {
  import opened ByteStrings
  import opened Protocol
  import opened Merkle

  /** How many nodes there are at a height over `n` leaves. */
  function Width(n: nat, height: nat): nat {
    if height == 0 then n else (Width(n, height - 1) + 1) / 2
  }

  /** The second child of a node: the one beside the first, or the first again when it is the last of an odd level. */
  function Beside(width: nat, i: nat): nat {
    if i + 1 < width then i + 1 else i
  }

  /** The node at a height, by its index: a leaf, or the hash of its two children, left first. */
  function NodeAt<T>(node: (T, T) -> T, leaves: seq<T>, height: nat, i: nat): T
    requires i < Width(|leaves|, height)
    decreases height
  {
    if height == 0 then leaves[i]
    else
      node(NodeAt(node, leaves, height - 1, 2 * i),
           NodeAt(node, leaves, height - 1, Beside(Width(|leaves|, height - 1), 2 * i)))
  }

  lemma {:induction false} WidthAbove<T>(node: (T, T) -> T, leaves: seq<T>, height: nat)
    ensures Width(|Parents(node, leaves)|, height) == Width(|leaves|, height + 1)
  {
    if height > 0 {
      WidthAbove(node, leaves, height - 1);
    }
  }

  lemma ParentIs<T>(node: (T, T) -> T, leaves: seq<T>, i: nat)
    requires i < |Parents(node, leaves)|
    ensures 2 * i < |leaves| && Parents(node, leaves)[i] == node(leaves[2 * i], leaves[Beside(|leaves|, 2 * i)])
  {
  }

  /** A tree over the parents is the tree over the leaves, one height up. */
  lemma {:induction false} NodeAbove<T>(node: (T, T) -> T, leaves: seq<T>, height: nat, i: nat)
    requires i < Width(|leaves|, height + 1)
    ensures i < Width(|Parents(node, leaves)|, height)
    ensures NodeAt(node, Parents(node, leaves), height, i) == NodeAt(node, leaves, height + 1, i)
    decreases height
  {
    WidthAbove(node, leaves, height);
    if height == 0 {
      ParentIs(node, leaves, i);
    } else {
      WidthAbove(node, leaves, height - 1);
      NodeAbove(node, leaves, height - 1, 2 * i);
      NodeAbove(node, leaves, height - 1, Beside(Width(|leaves|, height), 2 * i));
    }
  }

  /** The root is the one node at the top. */
  lemma {:induction false} RootIsTop<T>(node: (T, T) -> T, leaves: seq<T>)
    requires leaves != []
    ensures Width(|leaves|, Height(|leaves|)) == 1
    ensures Root(node, leaves) == NodeAt(node, leaves, Height(|leaves|), 0)
    decreases |leaves|
  {
    if |leaves| > 1 {
      var h := Height((|leaves| + 1) / 2);
      RootIsTop(node, Parents(node, leaves));
      WidthAbove(node, leaves, h);
      NodeAbove(node, leaves, h, 0);
    }
  }

  /** The step of a proof at a height, for the node on the way: its sibling, on the left of an odd node and on the right
      of an even one. */
  predicate IsStep<T(==)>(node: (T, T) -> T, leaves: seq<T>, height: nat, j: nat, step: Step<T>) {
    && j < Width(|leaves|, height)
    && (if j % 2 == 1 then step == Step(Left, NodeAt(node, leaves, height, j - 1))
        else step == Step(Right, NodeAt(node, leaves, height, Beside(Width(|leaves|, height), j))))
  }

  lemma StepAbove<T>(node: (T, T) -> T, leaves: seq<T>, height: nat, j: nat, step: Step<T>)
    requires IsStep(node, Parents(node, leaves), height, j, step)
    ensures IsStep(node, leaves, height + 1, j, step)
  {
    var w := Width(|leaves|, height + 1);
    WidthAbove(node, leaves, height);
    if j % 2 == 1 {
      NodeAbove(node, leaves, height, j - 1);
    } else {
      NodeAbove(node, leaves, height, Beside(w, j));
    }
  }

  /** The index of the node above a leaf. */
  function Ancestor(leaf: nat, height: nat): nat {
    if height == 0 then leaf else Ancestor(leaf, height - 1) / 2
  }

  lemma {:induction false} AncestorAbove(leaf: nat, height: nat)
    ensures Ancestor(leaf / 2, height) == Ancestor(leaf, height + 1)
  {
    if height > 0 {
      AncestorAbove(leaf, height - 1);
    }
  }

  /** Step `k` of the path from a leaf is what it should be. */
  predicate StepHolds<T(==)>(node: (T, T) -> T, leaves: seq<T>, leaf: nat, k: nat) {
    && leaf < |leaves| && k < |Path(node, leaves, leaf)|
    && IsStep(node, leaves, k, Ancestor(leaf, k), Path(node, leaves, leaf)[k])
  }

  lemma FirstStepHolds<T>(node: (T, T) -> T, leaves: seq<T>, leaf: nat)
    requires leaf < |leaves| && |leaves| > 1
    ensures StepHolds(node, leaves, leaf, 0)
  {
    PathUnfolds(node, leaves, leaf);
    assert IsStep(node, leaves, 0, leaf, StepAt(leaves, leaf));
  }

  lemma LaterStep<T>(node: (T, T) -> T, leaves: seq<T>, leaf: nat, k: nat)
    requires leaf < |leaves| && 0 < k < |Path(node, leaves, leaf)|
    ensures |leaves| > 1 && leaf / 2 < |Parents(node, leaves)| && k - 1 < |Path(node, Parents(node, leaves), leaf / 2)|
    ensures Path(node, leaves, leaf)[k] == Path(node, Parents(node, leaves), leaf / 2)[k - 1]
  {
    PathUnfolds(node, leaves, leaf);
    assert Path(node, leaves, leaf)[1..][k - 1] == Path(node, leaves, leaf)[k];
  }

  lemma HoldsFor<T>(node: (T, T) -> T, leaves: seq<T>, leaf: nat, k: nat, j: nat, step: Step<T>)
    requires leaf < |leaves| && k < |Path(node, leaves, leaf)|
    requires IsStep(node, leaves, k, j, step) && j == Ancestor(leaf, k) && Path(node, leaves, leaf)[k] == step
    ensures StepHolds(node, leaves, leaf, k)
  {
  }

  lemma StepRises<T>(node: (T, T) -> T, leaves: seq<T>, leaf: nat, k: nat, step: Step<T>)
    requires leaf < |leaves| && 0 < k < |Path(node, leaves, leaf)| && Path(node, leaves, leaf)[k] == step
    requires IsStep(node, Parents(node, leaves), k - 1, Ancestor(leaf / 2, k - 1), step)
    ensures StepHolds(node, leaves, leaf, k)
  {
    AncestorAbove(leaf, k - 1);
    StepAbove(node, leaves, k - 1, Ancestor(leaf / 2, k - 1), step);
    HoldsFor(node, leaves, leaf, k, Ancestor(leaf, k), step);
  }

  /** Step `k` of the built path is the sibling of the leaf's ancestor at height `k`, on its side. */
  lemma {:induction false} PathStepIs<T>(node: (T, T) -> T, leaves: seq<T>, leaf: nat, k: nat)
    requires leaf < |leaves| && k < |Path(node, leaves, leaf)|
    ensures StepHolds(node, leaves, leaf, k)
    decreases |leaves|
  {
    if k == 0 {
      FirstStepHolds(node, leaves, leaf);
    } else {
      LaterStep(node, leaves, leaf, k);
      PathStepIs(node, Parents(node, leaves), leaf / 2, k - 1);
      StepRises(node, leaves, leaf, k, Path(node, Parents(node, leaves), leaf / 2)[k - 1]);
    }
  }

  /** The whole of what the program builds: the root of a ledger's leaves is the top of this tree, and its proof for a
      leaf names the siblings on the way up, one for each height. */
  lemma TreeIs(c: Crypto, leaves: seq<Bytes32>, leaf: nat, k: nat)
    requires leaf < |leaves| && k < Height(|leaves|)
    ensures Width(|leaves|, Height(|leaves|)) == 1
            && MerkleRootOf(c, leaves) == NodeAt(Node(c), leaves, Height(|leaves|), 0)
    ensures |Path(Node(c), leaves, leaf)| == Height(|leaves|)
    ensures IsStep(Node(c), leaves, k, Ancestor(leaf, k), Path(Node(c), leaves, leaf)[k])
  {
    RootIsTop(Node(c), leaves);
    PathHeight(Node(c), leaves, leaf);
    PathStepIs(Node(c), leaves, leaf, k);
  }
}
