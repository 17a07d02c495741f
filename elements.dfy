/**
 * The container's children, modelled as the sequence of petal identities
 * in document order, and element removal on that sequence.
 */
module Elements {

  /** A node has at most one position among its parent's children. */
  predicate Distinct(s: seq<nat>)
  {
    forall i, j :: 0 <= i < j < |s| ==> s[i] != s[j]
  }

  /** The children left after every element of `gone` has been detached. */
  function Without(s: seq<nat>, gone: set<nat>): (r: seq<nat>)
    ensures forall x :: x in r <==> x in s && x !in gone
    ensures |r| <= |s|
    ensures Distinct(s) ==> Distinct(r)
  {
    if s == [] then []
    else
      var rest := Without(s[1..], gone);
      assert forall x :: x in s[1..] ==> x in s;
      if s[0] in gone then rest else [s[0]] + rest
  }

  /** Detaching in two rounds is detaching everything at once. */
  lemma {:induction false} WithoutTwice(s: seq<nat>, first: set<nat>, second: set<nat>)
    ensures Without(Without(s, first), second) == Without(s, first + second)
  {
    if s != [] {
      WithoutTwice(s[1..], first, second);
      if s[0] !in first {
        assert Without(s, first) == [s[0]] + Without(s[1..], first);
        assert Without(s, first)[1..] == Without(s[1..], first);
      }
    }
  }

  /** Detaching elements that are not attached changes nothing. */
  lemma {:induction false} WithoutAbsent(s: seq<nat>, gone: set<nat>)
    requires forall x :: x in gone ==> x !in s
    ensures Without(s, gone) == s
  {
    if s != [] {
      assert forall x :: x in s[1..] ==> x in s;
      WithoutAbsent(s[1..], gone);
      assert s == [s[0]] + s[1..];
    }
  }

  /** Detaching the first child of a list without repeats drops exactly that child. */
  lemma WithoutFirst(s: seq<nat>)
    requires Distinct(s) && |s| > 0
    ensures Without(s, {s[0]}) == s[1..]
  {
    assert forall x :: x in s[1..] ==> x != s[0];
    WithoutAbsent(s[1..], {s[0]});
  }

  /** Appending a new child keeps the children distinct. */
  lemma AppendFresh(s: seq<nat>, x: nat)
    requires Distinct(s) && x !in s
    ensures Distinct(s + [x])
  {
  }
}
