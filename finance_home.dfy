/** The finance home screen's asset breakdown (`getAssetsByType`). */
module FinanceHome {
  import opened Summation
  import opened FinanceTypes
  import opened FinanceContext

  /** The assets of type t, in ledger order. */
  function OfType(assets: seq<Asset>, t: AssetType): seq<Asset>
  {
    if assets == [] then []
    else OfType(assets[..|assets| - 1], t) + (if assets[|assets| - 1].assetType == t then [assets[|assets| - 1]] else [])
  }

  /** `getAssetsByType`: the filter followed by the amount fold. */
  function AssetsByType(assets: seq<Asset>, t: AssetType): real
  {
    SumBy(OfType(assets, t), AssetAmount)
  }

  /** Only assets of type t are kept, and all of them are. */
  lemma {:induction false} OfTypeExact(assets: seq<Asset>, t: AssetType)
    ensures forall a :: a in OfType(assets, t) <==> a in assets && a.assetType == t
    ensures |OfType(assets, t)| <= |assets|
    decreases |assets|
  {
    if assets != [] {
      var u := assets[..|assets| - 1];
      OfTypeExact(u, t);
      assert assets == u + [assets[|assets| - 1]];
    }
  }

  /** Appending an asset adds its amount to its own type's total and to no other. */
  lemma AssetsByTypeAppend(assets: seq<Asset>, a: Asset, t: AssetType)
    ensures AssetsByType(assets + [a], t) == AssetsByType(assets, t) + (if a.assetType == t then a.amount else 0.0)
  {
    var s := assets + [a];
    assert s[..|s| - 1] == assets;
    if a.assetType == t {
      SumByAppend(OfType(assets, t), a, AssetAmount);
    } else {
      assert OfType(s, t) == OfType(assets, t) + [];
      assert OfType(assets, t) + [] == OfType(assets, t);
    }
  }

  /** The total is 0 when no asset has type t. */
  lemma {:induction false} AssetsByTypeNone(assets: seq<Asset>, t: AssetType)
    requires forall a :: a in assets ==> a.assetType != t
    ensures AssetsByType(assets, t) == 0.0
    decreases |assets|
  {
    if assets != [] {
      var u := assets[..|assets| - 1];
      assert assets == u + [assets[|assets| - 1]];
      assert assets[|assets| - 1] in assets;
      AssetsByTypeAppend(u, assets[|assets| - 1], t);
      AssetsByTypeNone(u, t);
    }
  }

  /** The equity, mutual fund and other totals add up to the total of all assets. */
  lemma {:induction false} BreakdownCoversAll(assets: seq<Asset>)
    ensures AssetsByType(assets, Equity) + AssetsByType(assets, MutualFund) + AssetsByType(assets, OtherAsset)
         == SumBy(assets, AssetAmount)
    decreases |assets|
  {
    if assets != [] {
      var u := assets[..|assets| - 1];
      var a := assets[|assets| - 1];
      assert assets == u + [a];
      BreakdownCoversAll(u);
      AssetsByTypeAppend(u, a, Equity);
      AssetsByTypeAppend(u, a, MutualFund);
      AssetsByTypeAppend(u, a, OtherAsset);
    }
  }

  /** Only the assets enter the breakdown: adding an expense or an income leaves it alone. */
  lemma BreakdownIgnoresFlows(d: FinanceData, e: Expense, i: Income, t: AssetType)
    ensures AssetsByType(WithExpense(d, e).assets, t) == AssetsByType(d.assets, t)
    ensures AssetsByType(WithIncome(d, i).assets, t) == AssetsByType(d.assets, t)
  {
  }

  /** Filtering a permutation gives a permutation of the filtered sequence. */
  lemma {:induction false} OfTypeMultiset(assets: seq<Asset>, t: AssetType)
    ensures forall a :: multiset(OfType(assets, t))[a] == if a.assetType == t then multiset(assets)[a] else 0
    decreases |assets|
  {
    if assets != [] {
      var u := assets[..|assets| - 1];
      var x := assets[|assets| - 1];
      assert assets == u + [x];
      OfTypeMultiset(u, t);
      assert multiset(assets) == multiset(u) + multiset{x};
    }
  }

  /** The total does not depend on the order of the assets. */
  lemma AssetsByTypeOrderIndependent(assets: seq<Asset>, other: seq<Asset>, t: AssetType)
    requires multiset(assets) == multiset(other)
    ensures AssetsByType(assets, t) == AssetsByType(other, t)
  {
    OfTypeMultiset(assets, t);
    OfTypeMultiset(other, t);
    assert multiset(OfType(assets, t)) == multiset(OfType(other, t));
    SumByPermutation(OfType(assets, t), OfType(other, t), AssetAmount);
  }
}
