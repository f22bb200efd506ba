/** The two orderings the service relies on, as Python's stable sorts:
    `list.sort(key=lambda p: p.name)` over image paths, and
    `sorted(xs, key=..., reverse=True)` over records with a timestamp. */
module Sorting {
  import opened Paths

  /** Python's `str` comparison `a <= b`: lexicographic by code point. */
  predicate TextLe(a: string, b: string)
  {
    a == [] || (b != [] && (a[0] < b[0] || (a[0] == b[0] && TextLe(a[1..], b[1..]))))
  }

  lemma {:induction false} TextLeTotal(a: string, b: string)
    ensures TextLe(a, b) || TextLe(b, a)
  {
    if a != [] && b != [] && a[0] == b[0] {
      TextLeTotal(a[1..], b[1..]);
    }
  }

  // ---------------- image paths, by file name, ascending ----------------

  predicate NamesSorted(ps: seq<string>)
  {
    forall i :: 0 <= i < |ps| - 1 ==> TextLe(Name(ps[i]), Name(ps[i + 1]))
  }

  function InsertByName(p: string, ps: seq<string>): (r: seq<string>)
    ensures multiset(r) == multiset(ps) + multiset{p}
    ensures |r| == |ps| + 1
  {
    if ps == [] || TextLe(Name(p), Name(ps[0])) then [p] + ps
    else assert ps == [ps[0]] + ps[1..]; [ps[0]] + InsertByName(p, ps[1..])
  }

  lemma {:induction false} InsertByNameSorted(p: string, ps: seq<string>)
    requires NamesSorted(ps)
    ensures NamesSorted(InsertByName(p, ps))
    ensures InsertByName(p, ps)[0] == p || (ps != [] && InsertByName(p, ps)[0] == ps[0])
  {
    if ps == [] || TextLe(Name(p), Name(ps[0])) {
    } else {
      TextLeTotal(Name(p), Name(ps[0]));
      InsertByNameSorted(p, ps[1..]);
      var tail := InsertByName(p, ps[1..]);
      var r := [ps[0]] + tail;
      assert TextLe(Name(ps[0]), Name(tail[0]));
      forall i | 0 <= i < |r| - 1 ensures TextLe(Name(r[i]), Name(r[i + 1])) {
        if i > 0 {
          assert r[i] == tail[i - 1] && r[i + 1] == tail[i];
        }
      }
    }
  }

  /** Stable insertion sort by name: an element is put before the first
      element whose name is not smaller, so equal names keep their order. */
  function SortByName(ps: seq<string>): (r: seq<string>)
    ensures multiset(r) == multiset(ps)
    ensures |r| == |ps|
  {
    if ps == [] then []
    else assert ps == [ps[0]] + ps[1..]; InsertByName(ps[0], SortByName(ps[1..]))
  }

  lemma {:induction false} SortByNameSorted(ps: seq<string>)
    ensures NamesSorted(SortByName(ps))
  {
    if ps != [] {
      SortByNameSorted(ps[1..]);
      InsertByNameSorted(ps[0], SortByName(ps[1..]));
    }
  }

  // ---------------- records, by an integer key, descending ----------------

  predicate SortedDesc<T>(xs: seq<T>, key: T -> int)
  {
    forall i :: 0 <= i < |xs| - 1 ==> key(xs[i]) >= key(xs[i + 1])
  }

  function InsertDesc<T>(x: T, xs: seq<T>, key: T -> int): (r: seq<T>)
    ensures multiset(r) == multiset(xs) + multiset{x}
    ensures |r| == |xs| + 1
  {
    if xs == [] || key(x) >= key(xs[0]) then [x] + xs
    else assert xs == [xs[0]] + xs[1..]; [xs[0]] + InsertDesc(x, xs[1..], key)
  }

  lemma {:induction false} InsertDescSorted<T>(x: T, xs: seq<T>, key: T -> int)
    requires SortedDesc(xs, key)
    ensures SortedDesc(InsertDesc(x, xs, key), key)
    ensures InsertDesc(x, xs, key)[0] == x || (xs != [] && InsertDesc(x, xs, key)[0] == xs[0])
  {
    if xs == [] || key(x) >= key(xs[0]) {
    } else {
      InsertDescSorted(x, xs[1..], key);
      var tail := InsertDesc(x, xs[1..], key);
      var r := [xs[0]] + tail;
      forall i | 0 <= i < |r| - 1 ensures key(r[i]) >= key(r[i + 1]) {
        if i > 0 {
          assert r[i] == tail[i - 1] && r[i + 1] == tail[i];
        }
      }
    }
  }

  /** `sorted(xs, key=key, reverse=True)`: stable, largest key first. */
  function SortDesc<T>(xs: seq<T>, key: T -> int): (r: seq<T>)
    ensures multiset(r) == multiset(xs)
    ensures |r| == |xs|
  {
    if xs == [] then []
    else assert xs == [xs[0]] + xs[1..]; InsertDesc(xs[0], SortDesc(xs[1..], key), key)
  }

  lemma {:induction false} SortDescSorted<T>(xs: seq<T>, key: T -> int)
    ensures SortedDesc(SortDesc(xs, key), key)
  {
    if xs != [] {
      SortDescSorted(xs[1..], key);
      InsertDescSorted(xs[0], SortDesc(xs[1..], key), key);
    }
  }
}
