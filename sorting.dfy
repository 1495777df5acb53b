/**
 * The in-place `.sort` the pages apply before showing a list: newest date
 * first for incomes and expenses, latest month first for the profit-sharing
 * history. Dates and months are `YYYY-MM-DD` / `YYYY-MM` strings, for which
 * the comparators' orders (date difference, `localeCompare`) coincide with
 * the character-by-character order of the strings, so keys are compared as
 * strings.
 */
module Sorting {

  /** `a` comes no later than `b` in character-by-character (dictionary) order. */
  predicate LexLe(a: string, b: string) {
    a == [] || (b != [] && (a[0] < b[0] || (a[0] == b[0] && LexLe(a[1..], b[1..]))))
  }

  lemma {:induction false} LexLeTotal(a: string, b: string)
    ensures LexLe(a, b) || LexLe(b, a)
  {
    if a != [] && b != [] && a[0] == b[0] {
      LexLeTotal(a[1..], b[1..]);
    }
  }

  lemma {:induction false} LexLeTransitive(a: string, b: string, c: string)
    requires LexLe(a, b) && LexLe(b, c)
    ensures LexLe(a, c)
  {
    if a != [] && b != [] && c != [] && a[0] == b[0] && b[0] == c[0] {
      LexLeTransitive(a[1..], b[1..], c[1..]);
    }
  }

  lemma {:induction false} LexLeAntisymmetric(a: string, b: string)
    requires LexLe(a, b) && LexLe(b, a)
    ensures a == b
  {
    if a != [] && b != [] {
      LexLeAntisymmetric(a[1..], b[1..]);
      assert a == [a[0]] + a[1..] && b == [b[0]] + b[1..];
    }
  }

  /** Every element's key is no earlier than the keys of the elements after it. */
  ghost predicate Descending<T>(xs: seq<T>, key: T -> string) {
    forall p, q :: 0 <= p < q < |xs| ==> LexLe(key(xs[q]), key(xs[p]))
  }

  /**
   * `a.sort((x, y) => key(y) <=> key(x))`: reorders `a` in place so that keys
   * descend, keeping its elements.
   */
  method SortDescending<T>(a: array<T>, key: T -> string)
    modifies a
    ensures Descending(a[..], key)
    ensures multiset(a[..]) == multiset(old(a[..]))
  {
    var i := 0;
    while i < a.Length
      invariant 0 <= i <= a.Length
      invariant Descending(a[..i], key)
      invariant multiset(a[..]) == multiset(old(a[..]))
    {
      Insert(a, i, key);
      i := i + 1;
    }
  }

  /** Moves `a[i]` left past every element whose key is smaller, so that `a[..i + 1]` descends. */
  method Insert<T>(a: array<T>, i: int, key: T -> string)
    requires 0 <= i < a.Length && Descending(a[..i], key)
    modifies a
    ensures Descending(a[..i + 1], key)
    ensures multiset(a[..]) == multiset(old(a[..]))
  {
    var j := i;
    while j > 0 && !LexLe(key(a[j]), key(a[j - 1]))
      invariant 0 <= j <= i
      invariant multiset(a[..]) == multiset(old(a[..]))
      invariant InsertionState(a[..], i, j, key)
    {
      LexLeTotal(key(a[j]), key(a[j - 1]));
      SwapKeepsState(a[..], i, j, key);
      a[j], a[j - 1] := a[j - 1], a[j];
      j := j - 1;
    }
    InsertionDone(a[..], i, j, key);
  }

  /**
   * While `a[j]` moves left: apart from position `j` the prefix `a[..i + 1]`
   * descends, and everything after `j` is no later than `a[j]`.
   */
  ghost predicate InsertionState<T>(s: seq<T>, i: int, j: int, key: T -> string)
    requires 0 <= j <= i < |s|
  {
    (forall p, q :: 0 <= p < q <= i && p != j && q != j ==> LexLe(key(s[q]), key(s[p])))
    && (forall q :: j < q <= i ==> LexLe(key(s[q]), key(s[j])))
  }

  lemma SwapKeepsState<T>(s: seq<T>, i: int, j: int, key: T -> string)
    requires 0 < j <= i < |s| && InsertionState(s, i, j, key)
    requires LexLe(key(s[j - 1]), key(s[j]))
    ensures InsertionState(s[j := s[j - 1]][j - 1 := s[j]], i, j - 1, key)
  {
  }

  lemma InsertionDone<T>(s: seq<T>, i: int, j: int, key: T -> string)
    requires 0 <= j <= i < |s| && InsertionState(s, i, j, key)
    requires j == 0 || LexLe(key(s[j]), key(s[j - 1]))
    ensures Descending(s[..i + 1], key)
  {
    forall p | 0 <= p < j - 1
      ensures LexLe(key(s[j]), key(s[p]))
    {
      LexLeTransitive(key(s[j]), key(s[j - 1]), key(s[p]));
    }
  }
}
