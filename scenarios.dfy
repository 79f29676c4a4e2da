/** Worked examples of the suggestion engine: the plans of the small wallets
    the repository's tests build, computed by `Plan`, with the share counts
    and remainders the tests expect. */
module Scenarios {
  import opened Allocation

  /** A group of assets with nothing invested yet: each input has total 0. */
  function Unheld(targets: seq<real>): (r: seq<AssetInput>)
    ensures |r| == |targets|
    ensures forall i :: 0 <= i < |targets| ==> r[i] == AssetInput(targets[i], 0.0)
  {
    seq(|targets|, i requires 0 <= i < |targets| => AssetInput(targets[i], 0.0))
  }

  /** A contribution of 0 suggests nothing anywhere: every actual investment
      of the plan is 0, whatever the wallet holds. */
  lemma PlanWithoutContribution(groups: seq<GroupInput>, walletTotal: real)
    ensures var plan := Plan(groups, walletTotal, 0.0);
      && (forall j :: 0 <= j < |groups| ==> plan[j].actual == 0.0)
      && (forall j, i :: 0 <= j < |groups| && 0 <= i < |plan[j].assets| ==> plan[j].assets[i].actual == 0.0)
  {
    var plan := Plan(groups, walletTotal, 0.0);
    forall j | 0 <= j < |groups|
      ensures plan[j].actual == 0.0
      ensures forall i :: 0 <= i < |plan[j].assets| ==> plan[j].assets[i].actual == 0.0
    {
      PlanAt(groups, walletTotal, 0.0, j);
      var ideals := GroupIdeals(groups, walletTotal, 0.0);
      assert plan[j].actual == Actual(ideals[j], Sum(ideals), 0.0);
      forall i | 0 <= i < |plan[j].assets| ensures plan[j].assets[i].actual == 0.0 {
        var assetIdeals := AssetIdeals(groups[j], 0.0);
        assert AssetActuals(plan[j])[i] == Actual(assetIdeals[i], Sum(assetIdeals), 0.0);
      }
    }
  }

  /** Nothing to invest buys no share and leaves nothing over. */
  lemma NothingBuysNothing(price: real)
    requires price > 0.0
    ensures Shares(0.0, price) == 0 && Remainder(0.0, price) == 0.0
  {
    SharesBounds(0.0, price);
  }

  /** One group at 100% holding one asset at 100%, nothing invested: the
      whole contribution goes to the group and on to the asset. */
  lemma SingleAssetTakesAll(contribution: real)
    requires contribution > 0.0
    ensures var plan := Plan([GroupInput(100.0, 0.0, [AssetInput(100.0, 0.0)])], 0.0, contribution);
      plan[0].actual == contribution && plan[0].assets[0].actual == contribution
  {
    var groups := [GroupInput(100.0, 0.0, [AssetInput(100.0, 0.0)])];
    PlanAt(groups, 0.0, contribution, 0);
    var ideals := GroupIdeals(groups, 0.0, contribution);
    assert ideals == [contribution];
    assert Sum(ideals) == contribution;
    var assetIdeals := AssetIdeals(groups[0], contribution);
    assert assetIdeals == [contribution];
    assert Sum(assetIdeals) == contribution;
  }

  /** Asset targets adding up to less than 100 can swallow a group's share:
      one group at 100%, holding 100 in one asset at 50%, is 10 below target
      after a contribution of 10, but the asset is above its 50% of 110, so
      the group's 10 reaches no asset. */
  lemma UnderTargetedGroupKeepsItsShare()
    ensures var plan := Plan([GroupInput(100.0, 100.0, [AssetInput(50.0, 100.0)])], 100.0, 10.0);
      && plan[0].actual == 10.0 && plan[0].assets[0].actual == 0.0
      && PlanAssetSum(plan) == 0.0
  {
    var groups := [GroupInput(100.0, 100.0, [AssetInput(50.0, 100.0)])];
    var plan := Plan(groups, 100.0, 10.0);
    PlanAt(groups, 100.0, 10.0, 0);
    var ideals := GroupIdeals(groups, 100.0, 10.0);
    assert ideals == [10.0];
    assert Sum(ideals) == 10.0;
    var assetIdeals := AssetIdeals(groups[0], 10.0);
    assert assetIdeals == [0.0];
    assert Sum(assetIdeals) == 0.0;
    assert AssetActuals(plan[0]) == [0.0];
    assert Sum(AssetActuals(plan[0])) == 0.0;
    assert PlanAssetSum(plan[1..]) == 0.0;
  }

  /** With that single asset priced at 5: 54 buys 10 shares and leaves 4,
      10.5 leaves 0.50, 41.5 leaves 1.50, and 1 to 4 buy nothing. */
  lemma SingleAssetRemainders()
    ensures Shares(54.0, 5.0) == 10 && Remainder(54.0, 5.0) == 4.0
    ensures Remainder(10.5, 5.0) == 0.5 && Remainder(41.5, 5.0) == 1.5
    ensures Remainder(5.0, 5.0) == 0.0
    ensures Remainder(1.0, 5.0) == 1.0 && Remainder(2.0, 5.0) == 2.0
    ensures Remainder(3.0, 5.0) == 3.0 && Remainder(4.0, 5.0) == 4.0
  {
  }

  /** The same wallet, its asset priced at 5: the wallet's remainder is the
      asset's, 4 for a contribution of 54, 0.50 for 10.5, 1.50 for 41.5, and
      0 for a contribution of 5 or of 0. */
  lemma SingleAssetWalletRemainder()
    ensures var groups := [GroupInput(100.0, 0.0, [AssetInput(100.0, 0.0)])];
      && PlanRemainder(Plan(groups, 0.0, 54.0), [[5.0]]) == 4.0
      && PlanRemainder(Plan(groups, 0.0, 10.5), [[5.0]]) == 0.5
      && PlanRemainder(Plan(groups, 0.0, 41.5), [[5.0]]) == 1.5
      && PlanRemainder(Plan(groups, 0.0, 5.0), [[5.0]]) == 0.0
      && PlanRemainder(Plan(groups, 0.0, 0.0), [[5.0]]) == 0.0
  {
    var groups := [GroupInput(100.0, 0.0, [AssetInput(100.0, 0.0)])];
    SingleAssetPlanRemainder(54.0);
    SingleAssetPlanRemainder(10.5);
    SingleAssetPlanRemainder(41.5);
    SingleAssetPlanRemainder(5.0);
    PlanWithoutContribution(groups, 0.0);
    NothingBuysNothing(5.0);
    var plan := Plan(groups, 0.0, 0.0);
    assert AssetActuals(plan[0]) == [0.0];
    assert Remainders([0.0], [5.0]) == 0.0;
    assert PlanRemainder(plan[1..], [[5.0]][1..]) == 0.0;
  }

  /** With a positive contribution that wallet's remainder is the remainder
      of the whole contribution at price 5. */
  lemma SingleAssetPlanRemainder(contribution: real)
    requires contribution > 0.0
    ensures PlanRemainder(Plan([GroupInput(100.0, 0.0, [AssetInput(100.0, 0.0)])], 0.0, contribution), [[5.0]])
      == Remainder(contribution, 5.0)
  {
    var plan := Plan([GroupInput(100.0, 0.0, [AssetInput(100.0, 0.0)])], 0.0, contribution);
    SingleAssetTakesAll(contribution);
    assert AssetActuals(plan[0]) == [contribution];
    assert Remainders([contribution], [5.0]) == Remainder(contribution, 5.0);
    assert PlanRemainder(plan[1..], [[5.0]][1..]) == 0.0;
  }

  /** One group at 100% of five unheld assets at 20% each, contribution 100:
      each asset receives 20, which buys 20, 10, 6, 5 and 2 shares at prices
      1, 2, 3, 4 and 7. */
  lemma FiveEqualAssets()
    ensures var plan := Plan([GroupInput(100.0, 0.0, Unheld([20.0, 20.0, 20.0, 20.0, 20.0]))], 0.0, 100.0);
      && plan[0].actual == 100.0
      && |plan[0].assets| == 5
      && forall i :: 0 <= i < 5 ==> plan[0].assets[i].actual == 20.0
    ensures Shares(20.0, 1.0) == 20 && Shares(20.0, 2.0) == 10 && Shares(20.0, 3.0) == 6
    ensures Shares(20.0, 4.0) == 5 && Shares(20.0, 7.0) == 2
  {
    var groups := [GroupInput(100.0, 0.0, Unheld([20.0, 20.0, 20.0, 20.0, 20.0]))];
    PlanAt(groups, 0.0, 100.0, 0);
    var ideals := GroupIdeals(groups, 0.0, 100.0);
    assert ideals == [100.0];
    var assetIdeals := AssetIdeals(groups[0], 100.0);
    assert assetIdeals == [20.0, 20.0, 20.0, 20.0, 20.0];
    assert Sum(assetIdeals) == 100.0;
  }

  /** Two groups at 50% with no assets, contribution 100: each receives 50. */
  lemma TwoEmptyGroups()
    ensures var plan := Plan([GroupInput(50.0, 0.0, []), GroupInput(50.0, 0.0, [])], 0.0, 100.0);
      plan[0].actual == 50.0 && plan[1].actual == 50.0
  {
    var groups := [GroupInput(50.0, 0.0, []), GroupInput(50.0, 0.0, [])];
    var ideals := GroupIdeals(groups, 0.0, 100.0);
    assert ideals == [50.0, 50.0];
    assert Sum([50.0, 50.0]) == 100.0;
    PlanAt(groups, 0.0, 100.0, 0);
    PlanAt(groups, 0.0, 100.0, 1);
  }

  /** A group at 50% already holding 1000 (100 shares at 10) beside an empty
      group at 50%, contribution 100: the full group gets nothing, its asset
      nothing, and the other group's asset all 100, which buys 10 shares at 10. */
  lemma FullGroupGetsNothing()
    ensures var plan := Plan([GroupInput(50.0, 1000.0, [AssetInput(100.0, 1000.0)]),
                              GroupInput(50.0, 0.0, [AssetInput(100.0, 0.0)])], 1000.0, 100.0);
      && plan[0].ideal == 0.0 && plan[0].actual == 0.0 && plan[0].assets[0].actual == 0.0
      && plan[1].actual == 100.0 && plan[1].assets[0].actual == 100.0
    ensures Shares(0.0, 10.0) == 0 && Shares(100.0, 10.0) == 10
  {
    var groups := [GroupInput(50.0, 1000.0, [AssetInput(100.0, 1000.0)]),
                   GroupInput(50.0, 0.0, [AssetInput(100.0, 0.0)])];
    var ideals := GroupIdeals(groups, 1000.0, 100.0);
    assert ideals == [0.0, 550.0];
    assert Sum([0.0, 550.0]) == 550.0;
    PlanAt(groups, 1000.0, 100.0, 0);
    PlanAt(groups, 1000.0, 100.0, 1);
    var first := AssetIdeals(groups[0], 100.0);
    assert first == [100.0];
    var second := AssetIdeals(groups[1], 100.0);
    assert second == [100.0];
    NothingBuysNothing(10.0);
  }

  /** One group at 100% of unheld assets at 30% and 70%, contribution 100,
      all priced at 1: the assets receive 30 and 70 and nothing is left over. */
  lemma NoRemainderThirtySeventy()
    ensures var plan := Plan([GroupInput(100.0, 0.0, Unheld([30.0, 70.0]))], 0.0, 100.0);
      && plan[0].assets[0].actual == 30.0 && plan[0].assets[1].actual == 70.0
      && Remainder(plan[0].assets[0].actual, 1.0) == 0.0
      && Remainder(plan[0].assets[1].actual, 1.0) == 0.0
  {
    var groups := [GroupInput(100.0, 0.0, Unheld([30.0, 70.0]))];
    PlanAt(groups, 0.0, 100.0, 0);
    var ideals := GroupIdeals(groups, 0.0, 100.0);
    assert ideals == [100.0];
    var assetIdeals := AssetIdeals(groups[0], 100.0);
    assert assetIdeals == [30.0, 70.0];
    assert Sum(assetIdeals) == 100.0;
  }

  /** Two groups at 50%, one of two unheld assets at 50% and one of four at
      25%, contribution 200, all priced at 1: each group receives 100, the
      assets 50 and 25, and nothing is left over. */
  lemma NoRemainderTwoGroups()
    ensures var plan := Plan([GroupInput(50.0, 0.0, Unheld([50.0, 50.0])),
                              GroupInput(50.0, 0.0, Unheld([25.0, 25.0, 25.0, 25.0]))], 0.0, 200.0);
      && plan[0].actual == 100.0 && plan[1].actual == 100.0
      && (forall i :: 0 <= i < 2 ==> plan[0].assets[i].actual == 50.0)
      && (forall i :: 0 <= i < 4 ==> plan[1].assets[i].actual == 25.0)
    ensures Remainder(50.0, 1.0) == 0.0 && Remainder(25.0, 1.0) == 0.0
  {
    var groups := [GroupInput(50.0, 0.0, Unheld([50.0, 50.0])),
                   GroupInput(50.0, 0.0, Unheld([25.0, 25.0, 25.0, 25.0]))];
    var ideals := GroupIdeals(groups, 0.0, 200.0);
    assert ideals == [100.0, 100.0];
    assert Sum([100.0, 100.0]) == 200.0;
    PlanAt(groups, 0.0, 200.0, 0);
    PlanAt(groups, 0.0, 200.0, 1);
    var first := AssetIdeals(groups[0], 200.0);
    assert first == [100.0, 100.0];
    assert Sum(first) == 200.0;
    var second := AssetIdeals(groups[1], 200.0);
    assert second == [50.0, 50.0, 50.0, 50.0];
    assert Sum(second) == 200.0;
  }
}
