/**
 * The standalone index counter (IndexProvider.kt, class `Impl`). It starts one
 * step before `startFrom`, so its first index is `startFrom`. Nothing in the
 * scope builder uses it: each scope counts its own groups.
 */
module IndexProviders {

  /** The counter's value after `k` calls: one step before `startFrom` at first,
      one step further after each call. */
  function NthIndex(startFrom: int, step: int, k: nat): int {
    if k == 0 then startFrom - step else NthIndex(startFrom, step, k - 1) + step
  }

  /** The `k`-th call returns `startFrom + (k - 1) * step`. */
  lemma {:induction false} NthIndexClosedForm(startFrom: int, step: int, k: nat)
    ensures NthIndex(startFrom, step, k) == startFrom + (k - 1) * step
  {
    if k > 0 {
      NthIndexClosedForm(startFrom, step, k - 1);
      assert (k - 2) * step + step == (k - 1) * step;
    }
  }

  /** With a positive step the indices strictly increase, so none repeats. */
  lemma {:induction false} NthIndexIncreasing(startFrom: int, step: int, j: nat, k: nat)
    requires 0 < step && j < k
    ensures NthIndex(startFrom, step, j) < NthIndex(startFrom, step, k)
    decreases k
  {
    if j < k - 1 {
      NthIndexIncreasing(startFrom, step, j, k - 1);
    }
  }

  class IndexProvider {
    var index: int
    const step: int
    ghost const startFrom: int
    ghost var calls: nat

    /** The counter holds the last index returned (or `startFrom - step` before
        the first call). */
    ghost predicate Valid()
      reads this
    {
      index == NthIndex(startFrom, step, calls)
    }

    /** `Impl(startFrom, step)`; the library's defaults are 1 and 1. */
    constructor (startFrom: int, step: int)
      ensures Valid() && calls == 0
      ensures this.startFrom == startFrom && this.step == step
    {
      index := startFrom - step;
      this.step := step;
      this.startFrom := startFrom;
      calls := 0;
    }

    /** `nextIndex`: steps the counter and returns it; only `index` changes. */
    method NextIndex() returns (r: int)
      requires Valid()
      modifies this`index, this`calls
      ensures Valid() && calls == old(calls) + 1
      ensures r == old(index) + step
      ensures r == index && r == NthIndex(startFrom, step, calls)
    {
      index := index + step;
      calls := calls + 1;
      r := index;
    }
  }

  /** With the defaults the first three calls return 1, 2 and 3. */
  method DefaultProviderExample() returns (a: int, b: int, c: int)
    ensures a == 1 && b == 2 && c == 3
  {
    var provider := new IndexProvider(1, 1);
    assert provider.index == 0;
    a := provider.NextIndex();
    assert a == 1;
    b := provider.NextIndex();
    assert b == 2;
    c := provider.NextIndex();
  }

  /** Starting at 10 with step 5 gives 10, 15, 20. */
  method SteppedProviderExample() returns (a: int, b: int, c: int)
    ensures a == 10 && b == 15 && c == 20
  {
    var provider := new IndexProvider(10, 5);
    assert provider.index == 5;
    a := provider.NextIndex();
    assert a == 10;
    b := provider.NextIndex();
    assert b == 15;
    c := provider.NextIndex();
  }
}
