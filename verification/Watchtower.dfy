/** What the watchtower's stores share: the names they accept, and how the sizes of sets compare. */
module Watchtower {
  import opened ByteStrings
  import opened Protocol

  predicate ValidName(c: Crypto, name: Bytes) {
    1 <= |name| <= 256 && c.printable(name)
  }

  lemma SubsetCount<T>(a: set<T>, b: set<T>)
    requires a <= b
    ensures |a| <= |b|
  {
    assert b == a + (b - a);
  }

  /** A one-to-one image is as large as what it is the image of. */
  lemma {:induction false} ImageSize<A, B>(s: set<A>, f: A -> B, image: set<B>)
    requires forall a, b :: (a in s && b in s && f(a) == f(b)) ==> a == b
    requires image == set a | a in s :: f(a)
    ensures |image| == |s|
    decreases |s|
  {
    if s != {} {
      var a :| a in s;
      var rest := s - {a};
      ImageSize(rest, f, image - {f(a)});
    }
  }

  ghost function Elements<T(!new)>(items: seq<T>): set<T> {
    set x | x in items
  }

  lemma {:induction false} DistinctSize<T(!new)>(items: seq<T>)
    requires forall i, j :: 0 <= i < j < |items| ==> items[i] != items[j]
    ensures |Elements(items)| == |items|
  {
    if items != [] {
      var n := |items| - 1;
      DistinctSize(items[..n]);
      assert Elements(items) == Elements(items[..n]) + {items[n]};
    }
  }
}
