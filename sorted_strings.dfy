/**
 * A string set rendered as a list the way `sets.NewString(xs...).List()` does:
 * every element once, in ascending order.
 */
module SortedStrings {
  import opened StringOrder

  function Elements(s: seq<string>): set<string>
  {
    set x | x in s
  }

  lemma ElementsCons(y: string, s: seq<string>)
    ensures Elements([y] + s) == {y} + Elements(s)
  {
  }

  /** Ascending with no element repeated. */
  predicate StrictlySorted(s: seq<string>)
  {
    forall i, j :: 0 <= i < j < |s| ==> Less(s[i], s[j])
  }

  lemma PrependSorted(y: string, s: seq<string>)
    requires StrictlySorted(s)
    requires forall z :: z in s ==> Less(y, z)
    ensures StrictlySorted([y] + s)
  {
  }

  /** Adds `x` to a list that is already the rendering of a set. */
  function Insert(x: string, s: seq<string>): (r: seq<string>)
    requires StrictlySorted(s)
    ensures StrictlySorted(r)
    ensures Elements(r) == Elements(s) + {x}
    decreases |s|
  {
    if s == [] then
      [x]
    else if x == s[0] then
      s
    else if Less(x, s[0]) then
      forall z | z in s
        ensures Less(x, z)
      {
        if z != s[0] {
          var k :| 0 <= k < |s| && s[k] == z;
          LessTransitive(x, s[0], z);
        }
      }
      PrependSorted(x, s);
      [x] + s
    else
      var rest := Insert(x, s[1..]);
      LessTotal(x, s[0]);
      forall z | z in rest
        ensures Less(s[0], z)
      {
        assert z in Elements(rest);
        if z != x {
          assert z in Elements(s[1..]);
          var k :| 0 <= k < |s[1..]| && s[1..][k] == z;
          assert s[k + 1] == z;
        }
      }
      PrependSorted(s[0], rest);
      assert s == [s[0]] + s[1..];
      ElementsCons(s[0], s[1..]);
      ElementsCons(s[0], rest);
      [s[0]] + rest
  }

  /** `sets.NewString(xs...).List()`: the distinct elements of `xs`, ascending. */
  function SortedList(xs: seq<string>): (r: seq<string>)
    ensures StrictlySorted(r)
    ensures Elements(r) == Elements(xs)
  {
    if xs == [] then []
    else
      assert xs == [xs[0]] + xs[1..];
      Insert(xs[0], SortedList(xs[1..]))
  }

  lemma StrictlySortedDistinct(s: seq<string>)
    requires StrictlySorted(s)
    ensures forall i, j :: 0 <= i < j < |s| ==> s[i] != s[j]
  {
    forall i, j | 0 <= i < j < |s|
      ensures s[i] != s[j]
    {
      if s[i] == s[j] {
        LessIrreflexive(s[i]);
      }
    }
  }

  /** A set has only one ascending duplicate-free rendering. */
  lemma {:induction false} StrictlySortedUnique(a: seq<string>, b: seq<string>)
    requires StrictlySorted(a) && StrictlySorted(b)
    requires Elements(a) == Elements(b)
    ensures a == b
  {
    assert a != [] ==> a[0] in Elements(a);
    assert b != [] ==> b[0] in Elements(b);
    if a == [] || b == [] {
    } else {
      if a[0] != b[0] {
        var k :| 0 <= k < |a| && a[k] == b[0];
        var m :| 0 <= m < |b| && b[m] == a[0];
        assert Less(a[0], b[0]);
        LessAsymmetric(a[0], b[0]);
        assert false;
      }
      StrictlySortedDistinct(a);
      StrictlySortedDistinct(b);
      assert a == [a[0]] + a[1..] && b == [b[0]] + b[1..];
      assert Elements(a[1..]) == Elements(a) - {a[0]};
      assert Elements(b[1..]) == Elements(b) - {b[0]};
      StrictlySortedUnique(a[1..], b[1..]);
    }
  }

  /** The rendering depends only on which strings occur, not on their order or repetition. */
  lemma SortedListDependsOnlyOnElements(xs: seq<string>, ys: seq<string>)
    requires Elements(xs) == Elements(ys)
    ensures SortedList(xs) == SortedList(ys)
  {
    StrictlySortedUnique(SortedList(xs), SortedList(ys));
  }
}
