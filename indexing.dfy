/** The parameter-space resolver: a flat progress index read as a
    mixed-radix number whose digits are the per-axis coordinates (outermost
    axis first), and the "virtual nested for-loop" test that decides which
    axes are re-driven at an index. */
module Indexing {
  import opened Arith
  import opened Sizing

  /** `prod(cstructure[j+1:])`: how many flat indices one step of axis `j`
      spans. All counts are positive whenever the loop runs (a zero count
      makes the range empty), so the stride then is too. */
  function Stride(counts: seq<nat>, j: nat): (st: nat)
    requires j < |counts|
    ensures Positive(counts) ==> st > 0
  {
    assert Positive(counts) ==> Positive(counts[j + 1..]);
    Prod(counts[j + 1..])
  }

  /** The declared contract of `cdatasearch(i, cstructure)` (its code is not
      part of this model): coordinate `j` is `(i / prod(s[j+1:])) % s[j]`. */
  function Address(i: nat, counts: seq<nat>): (a: seq<nat>)
    requires Positive(counts)
    ensures |a| == |counts|
    ensures forall j :: 0 <= j < |a| ==> a[j] < counts[j]
  {
    seq(|counts|, j requires 0 <= j < |counts| => (i / Stride(counts, j)) % counts[j])
  }

  /** A coordinate tuple of the structure. */
  predicate Within(a: seq<nat>, counts: seq<nat>)
  {
    |a| == |counts| && forall j :: 0 <= j < |a| ==> a[j] < counts[j]
  }

  /** The axis-change test of the measure loop: axis `j` is re-driven at `i`
      when `i` is a multiple of its stride or `i` is the first index visited
      (the resume index). */
  predicate Refreshed(counts: seq<nat>, i: nat, j: nat, first: nat)
    requires Positive(counts) && j < |counts|
  {
    i % Stride(counts, j) == 0 || i == first
  }

  /** The inverse of `Address`: the flat index a coordinate tuple denotes. */
  function Compose(a: seq<nat>, counts: seq<nat>): nat
    requires |a| == |counts|
  {
    if counts == [] then 0 else a[0] * Prod(counts[1..]) + Compose(a[1..], counts[1..])
  }

  /** Dropping the outermost axis leaves the address of the remaining axes. */
  lemma AddressTail(i: nat, counts: seq<nat>)
    requires Positive(counts) && counts != []
    ensures Address(i, counts)[1..] == Address(i, counts[1..])
    ensures Address(i, counts)[0] == (i / Stride(counts, 0)) % counts[0]
  {
    var t := counts[1..];
    forall j | 0 <= j < |t| ensures Address(i, counts)[1..][j] == Address(i, t)[j] {
      StrideTail(counts, j);
    }
  }

  lemma StrideTail(counts: seq<nat>, j: nat)
    requires j + 1 < |counts|
    ensures Stride(counts, j + 1) == Stride(counts[1..], j)
  {
    assert counts[j + 2..] == counts[1..][j + 1..];
  }

  /** Composing the address of `i` gives `i` back, reduced modulo the size of
      the space. */
  lemma {:induction false} ComposeAddress(i: nat, counts: seq<nat>)
    requires Positive(counts)
    ensures Compose(Address(i, counts), counts) == i % Prod(counts)
  {
    if counts == [] {
      DivModUnique(i, 1, i, 0);
    } else {
      var t := counts[1..];
      var p := Prod(t);
      AddressTail(i, counts);
      ComposeAddress(i, t);
      DivDiv(i, p, counts[0]);
      assert p * counts[0] == counts[0] * p;
    }
  }

  /** Every index of the space is recovered from its address. */
  lemma AddressRoundTrip(i: nat, counts: seq<nat>)
    requires Positive(counts) && i < Prod(counts)
    ensures Compose(Address(i, counts), counts) == i
  {
    ComposeAddress(i, counts);
    DivModUnique(i, Prod(counts), 0, i);
  }

  /** An in-range coordinate tuple composes to an index inside the space. */
  lemma {:induction false} ComposeBound(a: seq<nat>, counts: seq<nat>)
    requires |a| == |counts| && forall j :: 0 <= j < |a| ==> a[j] < counts[j]
    ensures Compose(a, counts) < Prod(counts)
  {
    if counts != [] {
      var p := Prod(counts[1..]);
      ComposeBound(a[1..], counts[1..]);
      MulLe(a[0], counts[0] - 1, p);
      assert (counts[0] - 1) * p == counts[0] * p - p;
    }
  }

  /** The address of a composed in-range tuple is the tuple itself, so
      `Address` is a bijection between `[0, Prod(counts))` and the tuples. */
  lemma {:induction false} AddressOfCompose(a: seq<nat>, counts: seq<nat>)
    requires Positive(counts) && |a| == |counts|
    requires forall j :: 0 <= j < |a| ==> a[j] < counts[j]
    ensures Address(Compose(a, counts), counts) == a
  {
    if counts != [] {
      var t := counts[1..];
      var p := Prod(t);
      var x := Compose(a, counts);
      var y := Compose(a[1..], t);
      assert Positive(t);
      ComposeBound(a[1..], t);
      DivModUnique(x, p, a[0], y);
      DivModUnique(a[0], counts[0], 0, a[0]);
      AddressTail(x, counts);
      // the inner axes only see x modulo p, which is y
      AddressOfCompose(a[1..], t);
      AddressModProd(x, t);
      assert Address(x, t) == Address(y, t);
    }
  }

  /** The size of the space factors as (outer axes) * (axis j) * (stride of j). */
  lemma StrideFactor(counts: seq<nat>, j: nat)
    requires j < |counts|
    ensures Prod(counts) == (Prod(counts[..j]) * counts[j]) * Stride(counts, j)
  {
    var outer, axis, inner := counts[..j], [counts[j]], counts[j + 1..];
    assert counts == (outer + axis) + inner;
    ProdAppend(outer + axis, inner);
    ProdAppend(outer, axis);
    assert axis[1..] == [];
    assert Prod(axis) == counts[j] * Prod(axis[1..]);
    assert Prod(inner) == Stride(counts, j);
  }

  /** One coordinate depends only on the index modulo the size of the space. */
  lemma CoordinateModProd(x: nat, counts: seq<nat>, j: nat)
    requires Positive(counts) && j < |counts|
    ensures (x / Stride(counts, j)) % counts[j] == ((x % Prod(counts)) / Stride(counts, j)) % counts[j]
  {
    StrideFactor(counts, j);
    assert Positive(counts[..j]);
    DigitModProduct(x, Stride(counts, j), counts[j], Prod(counts[..j]));
  }

  /** The address depends only on the index modulo the size of the space. */
  lemma AddressModProd(x: nat, counts: seq<nat>)
    requires Positive(counts)
    ensures Address(x, counts) == Address(x % Prod(counts), counts)
  {
    forall j | 0 <= j < |counts| ensures Address(x, counts)[j] == Address(x % Prod(counts), counts)[j] {
      CoordinateModProd(x, counts, j);
    }
  }

  /** Sizes [2, 3] enumerate (0,0), (0,1), (0,2), (1,0), (1,1), (1,2). */
  lemma TwoByThree()
    ensures Address(0, [2, 3]) == [0, 0] && Address(1, [2, 3]) == [0, 1]
    ensures Address(2, [2, 3]) == [0, 2] && Address(3, [2, 3]) == [1, 0]
    ensures Address(4, [2, 3]) == [1, 1] && Address(5, [2, 3]) == [1, 2]
  {
    forall i: nat | i < 6 ensures Address(i, [2, 3]) == [(i / 3) % 2, i % 3] {
      AddressOfTwoByThree(i);
    }
  }

  lemma AddressOfTwoByThree(i: nat)
    ensures Address(i, [2, 3]) == [(i / 3) % 2, i % 3]
  {
    var s: seq<nat> := [2, 3];
    assert s[1..] == [3] && s[2..] == [];
    assert [3][1..] == [];
    assert Stride(s, 0) == 3 && Stride(s, 1) == 1;
  }

  /** Lazy refresh is sound: an axis whose test is false at `i` keeps the
      coordinate it had at `i - 1`, so skipping its hardware write loses nothing. */
  lemma NotRefreshedKeepsCoordinate(counts: seq<nat>, i: nat, j: nat, first: nat)
    requires Positive(counts) && j < |counts| && i > 0
    requires !Refreshed(counts, i, j, first)
    ensures Address(i, counts)[j] == Address(i - 1, counts)[j]
  {
    DivPredecessor(i, Stride(counts, j));
  }

  /** At a positive multiple of its stride an axis advances by one step of its
      odometer digit (wrapping to 0 after its last value). */
  lemma RefreshAdvancesCoordinate(counts: seq<nat>, i: nat, j: nat)
    requires Positive(counts) && j < |counts| && i > 0
    requires i % Stride(counts, j) == 0
    ensures Address(i, counts)[j] == (Address(i - 1, counts)[j] + 1) % counts[j]
  {
    var st := Stride(counts, j);
    DivPredecessorOfMultiple(i, st);
    ModSuccessor((i - 1) / st, counts[j]);
  }

  /** The innermost axis (empty stride product) is re-driven at every index. */
  lemma InnermostAlwaysRefreshed(counts: seq<nat>, i: nat, first: nat)
    requires Positive(counts) && counts != []
    ensures Refreshed(counts, i, |counts| - 1, first)
  {
    assert counts[|counts|..] == [];
  }

  /** A refresh of axis `j` by divisibility also refreshes every inner axis `k > j`. */
  lemma RefreshPropagatesInward(counts: seq<nat>, i: nat, j: nat, k: nat)
    requires Positive(counts) && j < k < |counts|
    requires i % Stride(counts, j) == 0
    ensures i % Stride(counts, k) == 0
  {
    var mid := counts[j + 1..k + 1];
    assert counts[j + 1..] == mid + counts[k + 1..];
    ProdAppend(mid, counts[k + 1..]);
    assert Positive(mid);
    MultipleOfFactor(i, Prod(mid), Stride(counts, k));
  }

  /** The last index in `first..i` at which axis `j` was re-driven. */
  function LastRefresh(counts: seq<nat>, first: nat, i: nat, j: nat): nat
    requires Positive(counts) && j < |counts| && first <= i
    decreases i - first
  {
    if Refreshed(counts, i, j, first) then i else LastRefresh(counts, first, i - 1, j)
  }

  /** The hardware of axis `j` holds the current coordinate: the last write of
      the axis since the first index happened at an index with the same
      coordinate, and no index after it re-drove the axis. */
  lemma {:induction false} LastRefreshHolds(counts: seq<nat>, first: nat, i: nat, j: nat)
    requires Positive(counts) && j < |counts| && first <= i
    ensures var r := LastRefresh(counts, first, i, j);
            && first <= r <= i
            && Refreshed(counts, r, j, first)
            && Address(r, counts)[j] == Address(i, counts)[j]
            && forall m :: r < m <= i ==> !Refreshed(counts, m, j, first)
    decreases i - first
  {
    if !Refreshed(counts, i, j, first) {
      LastRefreshHolds(counts, first, i - 1, j);
      NotRefreshedKeepsCoordinate(counts, i, j, first);
    }
  }
}
