/** PHP's sort() on a list of strings that are not numeric (plugin paths all
    end in ".php"): the strings are ordered by strcmp(), lexicographically by
    character, a proper prefix first. The list sort() leaves behind is the one
    sorted rearrangement of its input; SortStrings computes it by insertion. */
module StringOrder {

  /** strcmp(a, b) <= 0. */
  predicate Le(a: string, b: string)
    decreases |a|
  {
    a == [] || (b != [] && (a[0] < b[0] || (a[0] == b[0] && Le(a[1..], b[1..]))))
  }

  lemma {:induction false} LeReflexive(a: string)
    ensures Le(a, a)
    decreases |a|
  {
    if a != [] {
      LeReflexive(a[1..]);
    }
  }

  /** Any two strings are comparable. */
  lemma {:induction false} LeTotal(a: string, b: string)
    ensures Le(a, b) || Le(b, a)
    decreases |a|
  {
    if a != [] && b != [] && a[0] == b[0] {
      LeTotal(a[1..], b[1..]);
    }
  }

  /** strcmp() returns 0 only for identical strings. */
  lemma {:induction false} LeAntisymmetric(a: string, b: string)
    requires Le(a, b) && Le(b, a)
    ensures a == b
    decreases |a|
  {
    if a != [] {
      LeAntisymmetric(a[1..], b[1..]);
      assert a == [a[0]] + a[1..] && b == [b[0]] + b[1..];
    }
  }

  lemma {:induction false} LeTransitive(a: string, b: string, c: string)
    requires Le(a, b) && Le(b, c)
    ensures Le(a, c)
    decreases |a|
  {
    if a != [] && a[0] == b[0] && b[0] == c[0] {
      LeTransitive(a[1..], b[1..], c[1..]);
    }
  }

  /** Every element is at most every later one. */
  predicate Sorted(s: seq<string>) {
    forall i, j :: 0 <= i < j < |s| ==> Le(s[i], s[j])
  }

  /** Places `x` in front of the first element it does not exceed. */
  function Insert(x: string, s: seq<string>): seq<string>
  {
    if s == [] then [x]
    else if Le(x, s[0]) then [x] + s
    else [s[0]] + Insert(x, s[1..])
  }

  /** Insertion adds exactly one occurrence of `x`. */
  lemma {:induction false} InsertCount(x: string, s: seq<string>)
    ensures multiset(Insert(x, s)) == multiset(s) + multiset{x}
  {
    if s != [] && !Le(x, s[0]) {
      InsertCount(x, s[1..]);
      assert s == [s[0]] + s[1..];
    }
  }

  /** A lower bound of `x` and of every element of `s` bounds the insertion. */
  lemma {:induction false} InsertBounded(y: string, x: string, s: seq<string>)
    requires Le(y, x)
    requires forall k :: 0 <= k < |s| ==> Le(y, s[k])
    ensures forall k :: 0 <= k < |Insert(x, s)| ==> Le(y, Insert(x, s)[k])
  {
    if s != [] && !Le(x, s[0]) {
      InsertBounded(y, x, s[1..]);
    }
  }

  /** Inserting into a sorted list keeps it sorted. */
  lemma {:induction false} InsertSorted(x: string, s: seq<string>)
    requires Sorted(s)
    ensures Sorted(Insert(x, s))
  {
    if s == [] {
    } else if Le(x, s[0]) {
      forall j | 0 < j < |s| ensures Le(x, s[j]) { LeTransitive(x, s[0], s[j]); }
    } else {
      LeTotal(x, s[0]);
      InsertSorted(x, s[1..]);
      InsertBounded(s[0], x, s[1..]);
    }
  }

  /** The sorted rearrangement of `s`. */
  function SortStrings(s: seq<string>): seq<string>
  {
    if s == [] then [] else Insert(s[0], SortStrings(s[1..]))
  }

  /** SortStrings returns a sorted rearrangement of its input. */
  lemma {:induction false} SortStringsSpec(s: seq<string>)
    ensures Sorted(SortStrings(s))
    ensures multiset(SortStrings(s)) == multiset(s)
  {
    if s != [] {
      SortStringsSpec(s[1..]);
      InsertSorted(s[0], SortStrings(s[1..]));
      InsertCount(s[0], SortStrings(s[1..]));
      assert s == [s[0]] + s[1..];
    }
  }

  /** The head of a sorted list is at most any of its elements. */
  lemma SortedHeadLe(a: seq<string>, y: string)
    requires Sorted(a) && y in a
    ensures Le(a[0], y)
  {
    var j :| 0 <= j < |a| && a[j] == y;
    if j == 0 { LeReflexive(y); }
  }

  /** Sorted lists with the same elements start with the same element. */
  lemma SameHead(a: seq<string>, b: seq<string>)
    requires Sorted(a) && Sorted(b) && a != []
    requires multiset(a) == multiset(b)
    ensures b != [] && a[0] == b[0]
  {
    assert a[0] in multiset(a);
    assert b[0] in multiset(b);
    SortedHeadLe(b, a[0]);
    SortedHeadLe(a, b[0]);
    LeAntisymmetric(a[0], b[0]);
  }

  /** Removing the head of a list removes one occurrence of it. */
  lemma TailMultiset(a: seq<string>)
    requires a != []
    ensures multiset(a[1..]) == multiset(a) - multiset{a[0]}
  {
    assert a == [a[0]] + a[1..];
  }

  /** Two sorted lists with the same elements are the same list: whatever
      algorithm sort() uses, its result is determined. */
  lemma {:induction false} SortedUnique(a: seq<string>, b: seq<string>)
    requires Sorted(a) && Sorted(b)
    requires multiset(a) == multiset(b)
    ensures a == b
  {
    if a == [] {
      assert |multiset(b)| == 0;
    } else {
      SameHead(a, b);
      TailMultiset(a);
      TailMultiset(b);
      SortedUnique(a[1..], b[1..]);
      assert a == [a[0]] + a[1..] && b == [b[0]] + b[1..];
    }
  }

  /** Sorting again after appending one element to a sorted list is the same
      as sorting the whole list at once. */
  lemma SortAppend(s: seq<string>, x: string)
    ensures SortStrings(SortStrings(s) + [x]) == SortStrings(s + [x])
  {
    var left := SortStrings(SortStrings(s) + [x]);
    var right := SortStrings(s + [x]);
    SortStringsSpec(s);
    SortStringsSpec(SortStrings(s) + [x]);
    SortStringsSpec(s + [x]);
    assert multiset(left) == multiset(SortStrings(s)) + multiset{x} == multiset(right);
    SortedUnique(left, right);
  }
}
