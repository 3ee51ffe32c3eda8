/**
 * Node identifiers and canonical channel keys.
 *
 * Node ids are strings compared the way Python compares `str` values:
 * lexicographically by character, a proper prefix first. A channel is keyed
 * by the sorted pair of its endpoint ids.
 */
module Ids {

  type NodeId = string

  /** `a` and `b` agree before position `i`, where `a` has the smaller character. */
  predicate SmallerAt(a: NodeId, b: NodeId, i: nat) {
    i < |a| && i < |b| && a[..i] == b[..i] && a[i] < b[i]
  }

  /** Dropping a common first character shifts the first difference by one. */
  lemma SmallerAtTails(a: NodeId, b: NodeId)
    requires |a| > 0 && |b| > 0
    ensures a[0] == b[0] ==> (a <= b <==> a[1..] <= b[1..])
    ensures a[0] == b[0] ==> ((exists i :: SmallerAt(a, b, i)) <==> exists j :: SmallerAt(a[1..], b[1..], j))
    ensures a[0] != b[0] ==> !(a <= b) && ((exists i :: SmallerAt(a, b, i)) <==> a[0] < b[0])
  {
    if a[0] == b[0] {
      if a <= b {
        assert a[1..] == b[1..|a|];
      }
      if a[1..] <= b[1..] {
        assert a == [a[0]] + a[1..] && b[..|a|] == [b[0]] + b[1..][..|a| - 1];
      }
      forall i: nat | SmallerAt(a, b, i)
        ensures i > 0 && SmallerAt(a[1..], b[1..], i - 1)
      {
        assert a[..i] == [a[0]] + a[1..][..i - 1] && b[..i] == [b[0]] + b[1..][..i - 1];
      }
      forall j: nat | SmallerAt(a[1..], b[1..], j)
        ensures SmallerAt(a, b, j + 1)
      {
        assert a[..j + 1] == [a[0]] + a[1..][..j] && b[..j + 1] == [b[0]] + b[1..][..j];
      }
    } else {
      if a[0] < b[0] {
        assert SmallerAt(a, b, 0);
      }
      assert forall i: nat | SmallerAt(a, b, i) :: i == 0;
    }
  }

  /**
   * `a <= b` on Python strings, compared character by character: a prefix
   * comes first, and otherwise the first differing character decides.
   */
  predicate AtMost(a: NodeId, b: NodeId): (r: bool)
    ensures a <= b ==> r
    ensures r && |a| > 0 ==> |b| > 0 && a[0] <= b[0]
    decreases |a|
  {
    if |a| > 0 && |b| > 0 then
      SmallerAtTails(a, b);
      a[0] < b[0] || (a[0] == b[0] && AtMost(a[1..], b[1..]))
    else
      |a| == 0
  }

  /**
   * `AtMost` is Python's string order: `a` is a prefix of `b`, or at the
   * first position where they differ `a` has the smaller character.
   */
  lemma {:induction false} AtMostFirstDifference(a: NodeId, b: NodeId)
    ensures AtMost(a, b) <==> a <= b || exists i :: SmallerAt(a, b, i)
    decreases |a|
  {
    if |a| > 0 && |b| > 0 {
      SmallerAtTails(a, b);
      if a[0] == b[0] {
        AtMostFirstDifference(a[1..], b[1..]);
      }
    }
  }

  lemma {:induction false} AtMostReflexive(a: NodeId)
    ensures AtMost(a, a)
  {
    if |a| > 0 {
      AtMostReflexive(a[1..]);
    }
  }

  lemma {:induction false} AtMostTotal(a: NodeId, b: NodeId)
    ensures AtMost(a, b) || AtMost(b, a)
  {
    if |a| > 0 && |b| > 0 && a[0] == b[0] {
      AtMostTotal(a[1..], b[1..]);
    }
  }

  lemma {:induction false} AtMostAntisymmetric(a: NodeId, b: NodeId)
    requires AtMost(a, b) && AtMost(b, a)
    ensures a == b
  {
    if |a| > 0 {
      AtMostAntisymmetric(a[1..], b[1..]);
      assert a == [a[0]] + a[1..];
      assert b == [b[0]] + b[1..];
    }
  }

  lemma {:induction false} AtMostTransitive(a: NodeId, b: NodeId, c: NodeId)
    requires AtMost(a, b) && AtMost(b, c)
    ensures AtMost(a, c)
  {
    if |a| > 0 && a[0] == b[0] && b[0] == c[0] {
      AtMostTransitive(a[1..], b[1..], c[1..]);
    }
  }

  /** The sorted pair of endpoint ids that identifies a channel. */
  datatype Key = Key(lo: NodeId, hi: NodeId)

  /** The key `sorted([a, b])` of the channel between `a` and `b`. */
  function KeyOf(a: NodeId, b: NodeId): (k: Key)
    ensures AtMost(k.lo, k.hi)
    ensures (k.lo == a && k.hi == b) || (k.lo == b && k.hi == a)
  {
    AtMostTotal(a, b);
    if AtMost(a, b) then Key(a, b) else Key(b, a)
  }

  /** The key does not depend on the order in which the endpoints are given. */
  lemma KeyOfSymmetric(a: NodeId, b: NodeId)
    ensures KeyOf(a, b) == KeyOf(b, a)
  {
    if AtMost(a, b) && AtMost(b, a) {
      AtMostAntisymmetric(a, b);
    }
  }

  /** Two endpoint pairs share a key exactly when they are the same unordered pair. */
  lemma KeyOfSamePair(a: NodeId, b: NodeId, c: NodeId, d: NodeId)
    ensures KeyOf(a, b) == KeyOf(c, d) <==> ((a == c && b == d) || (a == d && b == c))
  {
    KeyOfSymmetric(a, b);
    KeyOfSymmetric(c, d);
  }
}
