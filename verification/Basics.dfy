/** Types shared by the models. */
module Basics {
  datatype Option<T> = None | Some(value: T)

  /** A signed 16-bit audio sample. */
  type Sample = x: int | -32768 <= x <= 32767

  type Byte = b: int | 0 <= b < 256

  lemma {:induction false} SubsetSize<T>(a: set<T>, b: set<T>)
    requires a <= b
    ensures |a| <= |b|
  {
    if a != {} {
      var x :| x in a;
      SubsetSize(a - {x}, b - {x});
    }
  }

  lemma SubsetSame<T>(a: set<T>, b: set<T>)
    requires a <= b
    ensures |a| == |b| <==> a == b
  {
    assert b == a + (b - a);
  }

  lemma DisjointSizes<T>(a: set<T>, b: set<T>, c: set<T>)
    requires a !! b !! c
    ensures |a + b + c| == |a| + |b| + |c|
  {
  }

  predicate Distinct<T(==)>(s: seq<T>) {
    forall i, j :: 0 <= i < j < |s| ==> s[i] != s[j]
  }

  /** `ids` without `id`, the erase-remove of a vector. */
  function Without<T(==,!new)>(ids: seq<T>, id: T): (rest: seq<T>)
    ensures id !in rest
    ensures forall x :: x in rest <==> x in ids && x != id
    ensures Distinct(ids) ==> Distinct(rest)
  {
    if ids == [] then []
    else if ids[0] == id then Without(ids[1..], id)
    else
      assert Distinct(ids) ==> Distinct(ids[1..]) && ids[0] !in ids[1..];
      [ids[0]] + Without(ids[1..], id)
  }

  lemma {:induction false} WithoutAppended<T(!new)>(ids: seq<T>, id: T)
    requires id !in ids
    ensures Without(ids + [id], id) == ids
  {
    if ids == [] {
      assert ids + [id] == [id];
    } else {
      assert (ids + [id])[1..] == ids[1..] + [id];
      WithoutAppended(ids[1..], id);
    }
  }

  /** `vec.erase(std::remove(...))`: one pass that keeps the others in order. */
  method EraseRemove<T(==,!new)>(list: seq<T>, id: T) returns (kept: seq<T>)
    ensures kept == Without(list, id)
  {
    kept := [];
    for i := 0 to |list|
      invariant kept == Without(list[..i], id)
    {
      assert list[..i + 1] == list[..i] + [list[i]];
      WithoutAppend(list[..i], list[i], id);
      if list[i] != id {
        kept := kept + [list[i]];
      }
    }
    assert list[..|list|] == list;
  }

  lemma {:induction false} WithoutAppend<T(!new)>(ids: seq<T>, x: T, id: T)
    ensures Without(ids + [x], id) == Without(ids, id) + if x == id then [] else [x]
  {
    if ids == [] {
      assert ids + [x] == [x];
    } else {
      assert (ids + [x])[1..] == ids[1..] + [x];
      WithoutAppend(ids[1..], x, id);
    }
  }

  lemma Append<T>(a: seq<T>, b: seq<T>, c: seq<T>)
    ensures (a + b) + c == a + (b + c)
  {
  }

  /** The last element of the second sequence is the last of both. */
  lemma LastOfBoth<T>(a: seq<T>, b: seq<T>)
    requires b != []
    ensures a + b == (a + b[..|b| - 1]) + [b[|b| - 1]]
  {
  }

  lemma Halves<T>(a: seq<T>, b: seq<T>, whole: seq<T>)
    requires a + b == whole
    ensures a == whole[..|a|] && b == whole[|a|..]
  {
  }

  /** A sequence is unchanged by a prefix exactly when the prefix is empty. */
  lemma EmptyPrefix<T>(a: seq<T>, b: seq<T>)
    ensures a + b == b <==> a == []
  {
    assert |a + b| == |a| + |b|;
    assert [] + b == b;
  }

  // ----- Selections ---------------------------------------------------------------------

  /** Of the first |keep| elements, those whose mark is set, in order. */
  function Select<T>(all: seq<T>, keep: seq<bool>): seq<T>
    requires |keep| <= |all|
    decreases |keep|
  {
    if keep == [] then []
    else
      var n := |keep| - 1;
      Select(all, keep[..n]) + if keep[n] then [all[n]] else []
  }

  /** How many marks are not set. */
  function Lost(keep: seq<bool>): nat {
    if keep == [] then 0 else Lost(keep[..|keep| - 1]) + if keep[|keep| - 1] then 0 else 1
  }

  lemma SelectNext<T>(all: seq<T>, keep: seq<bool>, b: bool)
    requires |keep| < |all|
    ensures Select(all, keep + [b]) == Select(all, keep) + if b then [all[|keep|]] else []
    ensures Lost(keep + [b]) == Lost(keep) + if b then 0 else 1
  {
    assert (keep + [b])[..|keep|] == keep;
  }

  lemma {:induction false} SelectMore<T>(all: seq<T>, keep: seq<bool>, x: T)
    requires |keep| <= |all|
    ensures Select(all + [x], keep) == Select(all, keep)
    decreases |keep|
  {
    if keep != [] { SelectMore(all, keep[..|keep| - 1], x); }
  }

  lemma {:induction false} SelectSize<T>(all: seq<T>, keep: seq<bool>)
    requires |keep| <= |all|
    ensures |Select(all, keep)| + Lost(keep) == |keep|
    decreases |keep|
  {
    if keep != [] { SelectSize(all, keep[..|keep| - 1]); }
  }

  lemma {:induction false} SelectAll<T>(all: seq<T>, keep: seq<bool>)
    requires |keep| <= |all| && Lost(keep) == 0
    ensures Select(all, keep) == all[..|keep|]
    decreases |keep|
  {
    if keep != [] { SelectAll(all, keep[..|keep| - 1]); }
  }

  lemma Quotient(n: nat, d: nat)
    requires d > 0
    ensures n / d * d <= n < n / d * d + d
  {
    assert n == n / d * d + n % d;
  }
}
