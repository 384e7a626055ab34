/**
 * Removing every occurrence of a value from a list, as `Array.prototype.filter`
 * with `v => v !== x` does, and the facts about it that the Accordion value
 * and the portal subscriber sets rely on.
 */
module Sequences {

  /** No value occurs twice: a JavaScript `Set` or `Map` key list. */
  predicate NoDuplicates<T(==,!new)>(s: seq<T>) {
    forall i, j :: 0 <= i < j < |s| ==> s[i] != s[j]
  }

  /** `s.filter(v => v !== x)`: every occurrence of `x` goes, the other
      entries stay. */
  function RemoveAll<T(==,!new)>(s: seq<T>, x: T): (r: seq<T>)
    ensures x !in r
    ensures forall v :: v in r <==> v in s && v != x
    ensures |r| <= |s|
    ensures NoDuplicates(s) ==> NoDuplicates(r)
  {
    if s == [] then []
    else if s[0] == x then RemoveAll(s[1..], x)
    else
      assert NoDuplicates(s) ==> NoDuplicates(s[1..]) && s[0] !in s[1..];
      [s[0]] + RemoveAll(s[1..], x)
  }

  /** Removing distributes over concatenation, so the remaining entries keep
      their relative order. */
  lemma {:induction false} RemoveAllAppend<T(!new)>(a: seq<T>, b: seq<T>, x: T)
    ensures RemoveAll(a + b, x) == RemoveAll(a, x) + RemoveAll(b, x)
  {
    if a == [] {
      assert a + b == b;
    } else {
      assert (a + b)[1..] == a[1..] + b;
      RemoveAllAppend(a[1..], b, x);
    }
  }

  /** Removing an absent value changes nothing. */
  lemma {:induction false} RemoveAllAbsent<T(!new)>(s: seq<T>, x: T)
    requires x !in s
    ensures RemoveAll(s, x) == s
  {
    if s != [] {
      RemoveAllAbsent(s[1..], x);
    }
  }

  /** Appending a value that was absent and removing it again gives back the
      original list. */
  lemma AppendThenRemoveAll<T(!new)>(s: seq<T>, x: T)
    requires x !in s
    ensures RemoveAll(s + [x], x) == s
  {
    RemoveAllAppend(s, [x], x);
    RemoveAllAbsent(s, x);
    assert RemoveAll([x], x) == [];
  }

  /** Removing a value that occurs once, between `before` and `after`, joins
      the two parts in their order. */
  lemma RemoveOnlyOccurrence<T(!new)>(before: seq<T>, x: T, after: seq<T>)
    requires x !in before && x !in after
    ensures RemoveAll(before + [x] + after, x) == before + after
  {
    assert RemoveAll([x], x) == [] by {
      assert [x][1..] == [];
    }
    RemoveAllAppend(before, [x], x);
    RemoveAllAbsent(before, x);
    var head := RemoveAll(before + [x], x);
    assert head == before;
    RemoveAllAppend(before + [x], after, x);
    RemoveAllAbsent(after, x);
  }
}
