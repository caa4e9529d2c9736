/**
 * The erase-remove idiom both dynamic resources use on their observer and
 * view lists: `vec.erase(std::remove(vec.begin(), vec.end(), x), vec.end())`.
 */
module EraseRemoveIdiom {

  /** `vec` after erasing the tail `std::remove` leaves: every `x` gone, the rest in order. */
  function EraseRemove<T(==)>(s: seq<T>, x: T): (r: seq<T>)
    ensures x !in r
    ensures |r| <= |s|
    decreases |s|
  {
    if s == [] then []
    else if s[0] == x then EraseRemove(s[1..], x)
    else [s[0]] + EraseRemove(s[1..], x)
  }

  /** Every occurrence of `x` goes; every other element keeps its multiplicity. */
  lemma {:induction false} EraseRemoveCounts<T>(s: seq<T>, x: T)
    ensures multiset(EraseRemove(s, x)) == multiset(s)[x := 0]
    ensures |EraseRemove(s, x)| == |s| - multiset(s)[x]
    decreases |s|
  {
    if s != [] {
      EraseRemoveCounts(s[1..], x);
      assert s == [s[0]] + s[1..];
      assert multiset(s) == multiset([s[0]]) + multiset(s[1..]);
      if s[0] != x {
        var r := EraseRemove(s, x);
        assert r == [s[0]] + EraseRemove(s[1..], x);
        assert multiset(r) == multiset([s[0]]) + multiset(EraseRemove(s[1..], x));
      }
    }
  }

  /** Removal works piecewise, so the survivors keep their relative order. */
  lemma {:induction false} EraseRemoveDistributes<T>(a: seq<T>, b: seq<T>, x: T)
    ensures EraseRemove(a + b, x) == EraseRemove(a, x) + EraseRemove(b, x)
    decreases |a|
  {
    if a == [] {
      assert a + b == b;
    } else {
      assert (a + b)[1..] == a[1..] + b;
      EraseRemoveDistributes(a[1..], b, x);
    }
  }

  /** Removing an element that is not there changes nothing. */
  lemma {:induction false} EraseRemoveAbsent<T>(s: seq<T>, x: T)
    requires x !in s
    ensures EraseRemove(s, x) == s
    decreases |s|
  {
    if s != [] {
      EraseRemoveAbsent(s[1..], x);
    }
  }

  /** Removing twice is removing once. */
  lemma EraseRemoveIdempotent<T>(s: seq<T>, x: T)
    ensures EraseRemove(EraseRemove(s, x), x) == EraseRemove(s, x)
  {
    EraseRemoveAbsent(EraseRemove(s, x), x);
  }

  /** Appending a new element and then removing it restores the list. */
  lemma EraseRemoveUndoesAppend<T>(s: seq<T>, x: T)
    requires x !in s
    ensures EraseRemove(s + [x], x) == s
  {
    EraseRemoveDistributes(s, [x], x);
    EraseRemoveAbsent(s, x);
    assert EraseRemove([x], x) == [];
  }
}
