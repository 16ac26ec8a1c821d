/** JavaScript `Set`s of file names as the notifier uses them: `add` appends a value
    that is not yet present, `delete` removes it, and iteration follows insertion
    order. A set is a duplicate-free sequence in insertion order. */
module FileSets {

  predicate NoDups(s: seq<string>) {
    forall i, j :: 0 <= i < j < |s| ==> s[i] != s[j]
  }

  /** `set.add(x)`. */
  function Insert(s: seq<string>, x: string): (r: seq<string>)
    ensures x in r && s <= r
    ensures forall y :: y in r <==> y in s || y == x
  {
    if x in s then s else s + [x]
  }

  /** `items.forEach(f => set.add(f))`, starting from the set s. */
  function InsertAll(s: seq<string>, items: seq<string>): seq<string>
  {
    if items == [] then s else Insert(InsertAll(s, items[..|items| - 1]), items[|items| - 1])
  }

  /** The distinct values of xs in the order of their first occurrence: `new Set(xs)`. */
  function Distinct(xs: seq<string>): seq<string> {
    InsertAll([], xs)
  }

  /** The values of xs that are not in drop, in their order. */
  function Filter(xs: seq<string>, drop: seq<string>): seq<string>
  {
    if xs == [] then []
    else Filter(xs[..|xs| - 1], drop) + (if xs[|xs| - 1] in drop then [] else [xs[|xs| - 1]])
  }

  /** `set.delete(x)`. */
  function Delete(s: seq<string>, x: string): seq<string> {
    Filter(s, [x])
  }

  // ---------------------------------------------------------------------------
  // Adding

  lemma {:induction false} InsertAllMembers(s: seq<string>, items: seq<string>)
    ensures forall x :: x in InsertAll(s, items) <==> x in s || x in items
  {
    if items != [] {
      var n := |items| - 1;
      InsertAllMembers(s, items[..n]);
      assert items == items[..n] + [items[n]];
    }
  }

  lemma {:induction false} InsertAllNoDups(s: seq<string>, items: seq<string>)
    requires NoDups(s)
    ensures NoDups(InsertAll(s, items))
  {
    if items != [] {
      InsertAllNoDups(s, items[..|items| - 1]);
    }
  }

  /** Adding never reorders or drops what the set already holds. */
  lemma {:induction false} InsertAllExtends(s: seq<string>, items: seq<string>)
    ensures s <= InsertAll(s, items)
  {
    if items != [] {
      InsertAllExtends(s, items[..|items| - 1]);
    }
  }

  /** Two `forEach(add)` passes are one pass over the concatenation. */
  lemma {:induction false} InsertAllConcat(s: seq<string>, a: seq<string>, b: seq<string>)
    ensures InsertAll(InsertAll(s, a), b) == InsertAll(s, a + b)
    decreases |b|
  {
    if b == [] {
      assert a + b == a;
    } else {
      var n := |b| - 1;
      InsertAllConcat(s, a, b[..n]);
      assert (a + b)[..|a + b| - 1] == a + b[..n];
      assert (a + b)[|a + b| - 1] == b[n];
    }
  }

  /** `new Set(xs)` has no duplicates, holds exactly the values of xs, and keeps the
      values of a prefix of xs first, in the same order. */
  lemma DistinctProperties(xs: seq<string>, ys: seq<string>)
    ensures NoDups(Distinct(xs))
    ensures forall x :: x in Distinct(xs) <==> x in xs
    ensures Distinct(xs) <= Distinct(xs + ys)
  {
    InsertAllNoDups([], xs);
    InsertAllMembers([], xs);
    InsertAllConcat([], xs, ys);
    InsertAllExtends(Distinct(xs), ys);
  }

  /** A list without duplicates comes out of a set unchanged. */
  lemma {:induction false} DistinctOfDistinct(xs: seq<string>)
    requires NoDups(xs)
    ensures Distinct(xs) == xs
  {
    if xs != [] {
      var n := |xs| - 1;
      assert NoDups(xs[..n]);
      DistinctOfDistinct(xs[..n]);
      assert xs[n] !in xs[..n];
      assert xs == xs[..n] + [xs[n]];
    }
  }

  // ---------------------------------------------------------------------------
  // Deleting

  lemma {:induction false} FilterMembers(xs: seq<string>, drop: seq<string>)
    ensures forall x :: x in Filter(xs, drop) <==> x in xs && x !in drop
  {
    if xs != [] {
      var n := |xs| - 1;
      FilterMembers(xs[..n], drop);
      assert xs == xs[..n] + [xs[n]];
    }
  }

  lemma {:induction false} FilterNoDups(xs: seq<string>, drop: seq<string>)
    requires NoDups(xs)
    ensures NoDups(Filter(xs, drop))
  {
    if xs != [] {
      var n := |xs| - 1;
      assert NoDups(xs[..n]);
      FilterNoDups(xs[..n], drop);
      FilterMembers(xs[..n], drop);
      assert xs[n] !in xs[..n];
    }
  }

  lemma {:induction false} FilterConcat(a: seq<string>, b: seq<string>, drop: seq<string>)
    ensures Filter(a + b, drop) == Filter(a, drop) + Filter(b, drop)
    decreases |b|
  {
    if b == [] {
      assert a + b == a;
    } else {
      var n := |b| - 1;
      FilterConcat(a, b[..n], drop);
      assert (a + b)[..|a + b| - 1] == a + b[..n];
      assert (a + b)[|a + b| - 1] == b[n];
    }
  }

  /** Deleting x after deleting the values of drop is deleting the values of drop + [x]. */
  lemma {:induction false} DeleteAfterFilter(xs: seq<string>, drop: seq<string>, x: string)
    ensures Delete(Filter(xs, drop), x) == Filter(xs, drop + [x])
  {
    if xs != [] {
      var n := |xs| - 1;
      DeleteAfterFilter(xs[..n], drop, x);
      var tail := if xs[n] in drop then [] else [xs[n]];
      FilterConcat(Filter(xs[..n], drop), tail, [x]);
    }
  }

  /** Deleting nothing changes nothing. */
  lemma {:induction false} FilterNothing(xs: seq<string>)
    ensures Filter(xs, []) == xs
  {
    if xs != [] {
      FilterNothing(xs[..|xs| - 1]);
    }
  }

  // ---------------------------------------------------------------------------
  // The loops

  /** `items.forEach(f => set.add(f))`. */
  method AddEach(s: seq<string>, items: seq<string>) returns (r: seq<string>)
    ensures r == InsertAll(s, items)
  {
    r := s;
    var i := 0;
    while i < |items|
      invariant 0 <= i <= |items|
      invariant r == InsertAll(s, items[..i])
    {
      assert items[..i + 1][..i] == items[..i];
      if items[i] !in r {
        r := r + [items[i]];
      }
      i := i + 1;
    }
    assert items[..i] == items;
  }
}
