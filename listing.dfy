/** The LINQ pipeline the services run against the database:
    `Where(p).OrderByDescending(key).Skip(skip).Take(take)`.
    `OrderByDescending` is modelled as a stable insertion sort over the rows in
    the order the table returns them; the database itself leaves the order of
    equal keys open, and nothing below depends on it beyond sortedness and
    being a permutation. */
module Listing {

  /** `Where(p)`. */
  function Filter<T>(xs: seq<T>, p: T -> bool): (r: seq<T>)
    ensures |r| <= |xs|
    ensures multiset(r) <= multiset(xs)
    ensures forall i :: 0 <= i < |r| ==> r[i] in xs && p(r[i])
    ensures forall i :: 0 <= i < |xs| && p(xs[i]) ==> xs[i] in r
  {
    if xs == [] then []
    else
      assert xs == [xs[0]] + xs[1..];
      if p(xs[0]) then [xs[0]] + Filter(xs[1..], p)
      else Filter(xs[1..], p)
  }

  /** Appending a block after a block already appended: a step of the loops
      that build a table or an outbox front to back. */
  lemma AppendAssoc<T>(a: seq<T>, b: seq<T>, c: seq<T>)
    ensures (a + b) + c == a + (b + c)
  {
  }

  /** Filtering a concatenation filters each part. */
  lemma {:induction false} FilterConcat<T>(xs: seq<T>, ys: seq<T>, p: T -> bool)
    ensures Filter(xs + ys, p) == Filter(xs, p) + Filter(ys, p)
  {
    if xs == [] {
      assert xs + ys == ys;
    } else {
      var zs := xs + ys;
      assert zs[0] == xs[0];
      assert zs[1..] == xs[1..] + ys;
      FilterConcat(xs[1..], ys, p);
    }
  }

  /** A filter that every element passes keeps the sequence as it is. */
  lemma {:induction false} FilterKeepsAll<T>(xs: seq<T>, p: T -> bool)
    requires forall i :: 0 <= i < |xs| ==> p(xs[i])
    ensures Filter(xs, p) == xs
  {
    if xs != [] {
      FilterKeepsAll(xs[1..], p);
    }
  }

  /** A filter that no element passes yields nothing. */
  lemma {:induction false} FilterDropsAll<T>(xs: seq<T>, p: T -> bool)
    requires forall i :: 0 <= i < |xs| ==> !p(xs[i])
    ensures Filter(xs, p) == []
  {
    if xs != [] {
      FilterDropsAll(xs[1..], p);
    }
  }

  ghost predicate SortedDesc<T>(xs: seq<T>, key: T -> int) {
    forall i, j :: 0 <= i < j < |xs| ==> key(xs[i]) >= key(xs[j])
  }

  /** Places `x` in front of the first element whose key is not larger, so that
      among equal keys earlier rows stay first. */
  function Insert<T>(x: T, ys: seq<T>, key: T -> int): (r: seq<T>)
    ensures |r| == |ys| + 1
    ensures multiset(r) == multiset(ys) + multiset{x}
  {
    if ys == [] || key(x) >= key(ys[0]) then [x] + ys
    else
      assert ys == [ys[0]] + ys[1..];
      [ys[0]] + Insert(x, ys[1..], key)
  }

  /** A head no smaller than every key of a sorted tail gives a sorted sequence. */
  lemma SortedCons<T>(h: T, t: seq<T>, key: T -> int)
    requires SortedDesc(t, key)
    requires forall i :: 0 <= i < |t| ==> key(t[i]) <= key(h)
    ensures SortedDesc([h] + t, key)
  {
    var r := [h] + t;
    forall i, j | 0 <= i < j < |r| ensures key(r[i]) >= key(r[j]) {
      assert r[j] == t[j - 1];
      if i > 0 {
        assert r[i] == t[i - 1];
      }
    }
  }

  /** Inserting keeps every key below a bound that `x` and `ys` respect. */
  lemma {:induction false} InsertBounded<T>(x: T, ys: seq<T>, key: T -> int, b: int)
    requires key(x) <= b
    requires forall i :: 0 <= i < |ys| ==> key(ys[i]) <= b
    ensures forall i :: 0 <= i < |Insert(x, ys, key)| ==> key(Insert(x, ys, key)[i]) <= b
  {
    var r := Insert(x, ys, key);
    if ys == [] || key(x) >= key(ys[0]) {
      assert r == [x] + ys;
      forall i | 0 <= i < |r| ensures key(r[i]) <= b {
        if i > 0 {
          assert r[i] == ys[i - 1];
        }
      }
    } else {
      var rest := Insert(x, ys[1..], key);
      assert r == [ys[0]] + rest;
      InsertBounded(x, ys[1..], key, b);
      forall i | 0 <= i < |r| ensures key(r[i]) <= b {
        if i > 0 {
          assert r[i] == rest[i - 1];
        }
      }
    }
  }

  /** Inserting into a sorted sequence keeps it sorted. */
  lemma {:induction false} InsertSorted<T>(x: T, ys: seq<T>, key: T -> int)
    requires SortedDesc(ys, key)
    ensures SortedDesc(Insert(x, ys, key), key)
  {
    if ys == [] || key(x) >= key(ys[0]) {
      assert forall i :: 0 <= i < |ys| ==> key(ys[i]) <= key(ys[0]);
      SortedCons(x, ys, key);
    } else {
      var rest := Insert(x, ys[1..], key);
      assert SortedDesc(ys[1..], key);
      InsertSorted(x, ys[1..], key);
      InsertBounded(x, ys[1..], key, key(ys[0]));
      SortedCons(ys[0], rest, key);
    }
  }

  /** `OrderByDescending(key)`: sorted by descending key and a permutation of its input. */
  function SortDesc<T>(xs: seq<T>, key: T -> int): (r: seq<T>)
    ensures |r| == |xs|
    ensures multiset(r) == multiset(xs)
    ensures SortedDesc(r, key)
  {
    if xs == [] then []
    else
      assert xs == [xs[0]] + xs[1..];
      InsertSorted(xs[0], SortDesc(xs[1..], key), key);
      Insert(xs[0], SortDesc(xs[1..], key), key)
  }

  function Max(a: int, b: int): int { if a >= b then a else b }
  function Min(a: int, b: int): int { if a <= b then a else b }

  /** `Skip(skip).Take(take)`: a negative skip skips nothing and a non-positive
      take yields nothing. */
  function Page<T>(xs: seq<T>, skip: int, take: int): (r: seq<T>)
    ensures |r| == Min(Max(take, 0), Max(|xs| - Max(skip, 0), 0))
    ensures forall i :: 0 <= i < |r| ==> r[i] == xs[Max(skip, 0) + i]
  {
    var from := Min(Max(skip, 0), |xs|);
    var to := from + Min(Max(take, 0), |xs| - from);
    xs[from..to]
  }

  /** Sorting neither invents nor loses rows. */
  lemma SortDescWithin<T>(xs: seq<T>, key: T -> int)
    ensures forall i :: 0 <= i < |SortDesc(xs, key)| ==> SortDesc(xs, key)[i] in xs
  {
    var r := SortDesc(xs, key);
    forall i | 0 <= i < |r| ensures r[i] in xs {
      assert r[i] in multiset(r);
    }
  }

  /** A page holds rows of the listing only. */
  lemma PageWithin<T>(xs: seq<T>, skip: int, take: int)
    ensures forall i :: 0 <= i < |Page(xs, skip, take)| ==> Page(xs, skip, take)[i] in xs
  {
    var r := Page(xs, skip, take);
    forall i | 0 <= i < |r| ensures r[i] in xs {
      assert r[i] == xs[Max(skip, 0) + i];
    }
  }

  /** A page of a sorted listing is sorted. */
  lemma PageSorted<T>(xs: seq<T>, skip: int, take: int, key: T -> int)
    requires SortedDesc(xs, key)
    ensures SortedDesc(Page(xs, skip, take), key)
  {
    var r := Page(xs, skip, take);
    forall i, j | 0 <= i < j < |r| ensures key(r[i]) >= key(r[j]) {
      assert r[i] == xs[Max(skip, 0) + i] && r[j] == xs[Max(skip, 0) + j];
    }
  }

  /** Consecutive pages tile the listing: two pages read back to back return the
      same rows as one page of the combined size. */
  lemma PagesTile<T>(xs: seq<T>, skip: nat, take1: nat, take2: nat)
    ensures Page(xs, skip, take1) + Page(xs, skip + take1, take2) == Page(xs, skip, take1 + take2)
  {
    var a, b, c := Page(xs, skip, take1), Page(xs, skip + take1, take2), Page(xs, skip, take1 + take2);
    assert |a + b| == |c|;
    forall i | 0 <= i < |c| ensures (a + b)[i] == c[i] {
      if i >= |a| {
        assert |a| == take1;
        assert (a + b)[i] == b[i - take1];
      }
    }
  }
}
