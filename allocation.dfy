/** The arithmetic of the suggestion engine, on values: the ideal investment
    of a node, the proportional split of a contribution among siblings, the
    share count and the remainder, and the two-pass plan for a whole wallet. */
module Allocation {

  /** `max(0, 0.01 * target * (parentTotal + contribution) - ownTotal)`: what a
      node would need to reach its target share of the parent after the
      contribution, and 0 for a node already at or above it. */
  function Ideal(target: real, parentTotal: real, contribution: real, ownTotal: real): (r: real)
    ensures r >= 0.0
    ensures r >= 0.01 * target * (parentTotal + contribution) - ownTotal
    ensures r == 0.0 || r == 0.01 * target * (parentTotal + contribution) - ownTotal
    ensures r == 0.0 <==> ownTotal >= 0.01 * target * (parentTotal + contribution)
  {
    var gap := 0.01 * target * (parentTotal + contribution) - ownTotal;
    if gap > 0.0 then gap else 0.0
  }

  /** `sum(...)`, from the first element to the last. */
  function Sum(xs: seq<real>): real {
    if |xs| == 0 then 0.0 else xs[0] + Sum(xs[1..])
  }

  ghost predicate AllNonNegative(xs: seq<real>) {
    forall i :: 0 <= i < |xs| ==> xs[i] >= 0.0
  }

  /** `_calculate_actual_investing`: the node's ideal over the siblings'
      total ideal, times the contribution; 0, with no division, when the
      siblings' total is 0. */
  function Actual(ideal: real, totalIdeal: real, contribution: real): real {
    if totalIdeal == 0.0 then 0.0 else ideal / totalIdeal * contribution
  }

  /** Every sibling's actual investment against the same total ideal. */
  function Distribute(ideals: seq<real>, totalIdeal: real, contribution: real): (r: seq<real>)
    ensures |r| == |ideals|
  {
    seq(|ideals|, i requires 0 <= i < |ideals| => Actual(ideals[i], totalIdeal, contribution))
  }

  /** The siblings' split of a contribution, against the sum of their ideals. */
  function Split(ideals: seq<real>, contribution: real): (r: seq<real>)
    ensures |r| == |ideals|
  {
    Distribute(ideals, Sum(ideals), contribution)
  }

  lemma {:induction false} SumNonNegative(xs: seq<real>)
    requires AllNonNegative(xs)
    ensures Sum(xs) >= 0.0
    decreases |xs|
  {
    if |xs| > 0 {
      assert AllNonNegative(xs[1..]) by {
        forall i | 0 <= i < |xs[1..]| ensures xs[1..][i] >= 0.0 {
          assert xs[1..][i] == xs[i + 1];
        }
      }
      SumNonNegative(xs[1..]);
    }
  }

  /** Non-negative numbers summing to 0 are all 0. */
  lemma {:induction false} SumZero(xs: seq<real>)
    requires AllNonNegative(xs) && Sum(xs) == 0.0
    ensures forall i :: 0 <= i < |xs| ==> xs[i] == 0.0
    decreases |xs|
  {
    if |xs| > 0 {
      assert AllNonNegative(xs[1..]) by {
        forall i | 0 <= i < |xs[1..]| ensures xs[1..][i] >= 0.0 {
          assert xs[1..][i] == xs[i + 1];
        }
      }
      SumNonNegative(xs[1..]);
      SumZero(xs[1..]);
      forall i | 1 <= i < |xs| ensures xs[i] == 0.0 {
        assert xs[i] == xs[1..][i - 1];
      }
    }
  }

  /** One element of non-negative numbers is at most their sum. */
  lemma {:induction false} ElementAtMostSum(xs: seq<real>, k: nat)
    requires AllNonNegative(xs) && k < |xs|
    ensures xs[k] <= Sum(xs)
    decreases |xs|
  {
    assert AllNonNegative(xs[1..]) by {
      forall i | 0 <= i < |xs[1..]| ensures xs[1..][i] >= 0.0 {
        assert xs[1..][i] == xs[i + 1];
      }
    }
    SumNonNegative(xs[1..]);
    if k > 0 {
      assert xs[k] == xs[1..][k - 1];
      ElementAtMostSum(xs[1..], k - 1);
    }
  }

  /** Splitting against a non-zero total scales the sum of the ideals. */
  lemma {:induction false} DistributeSum(ideals: seq<real>, totalIdeal: real, contribution: real)
    requires totalIdeal != 0.0
    ensures Sum(Distribute(ideals, totalIdeal, contribution)) == Sum(ideals) / totalIdeal * contribution
    decreases |ideals|
  {
    var d := Distribute(ideals, totalIdeal, contribution);
    if |ideals| > 0 {
      assert d[1..] == Distribute(ideals[1..], totalIdeal, contribution);
      DistributeSum(ideals[1..], totalIdeal, contribution);
      var x, rest := ideals[0], Sum(ideals[1..]);
      assert (x + rest) / totalIdeal * contribution == x / totalIdeal * contribution + rest / totalIdeal * contribution;
    }
  }

  /** Conservation: siblings with a positive total ideal receive the whole
      contribution between them. */
  lemma SplitConserves(ideals: seq<real>, contribution: real)
    requires Sum(ideals) != 0.0
    ensures Sum(Split(ideals, contribution)) == contribution
  {
    DistributeSum(ideals, Sum(ideals), contribution);
  }

  /** The zero-denominator rule: siblings whose ideals sum to 0 all receive 0. */
  lemma SplitOfNothingNeeded(ideals: seq<real>, contribution: real)
    requires Sum(ideals) == 0.0
    ensures forall i :: 0 <= i < |ideals| ==> Split(ideals, contribution)[i] == 0.0
    ensures Sum(Split(ideals, contribution)) == 0.0
  {
    var s := Split(ideals, contribution);
    assert s == seq(|ideals|, i => 0.0);
    ZeroSum(|ideals|);
  }

  lemma {:induction false} ZeroSum(n: nat)
    ensures Sum(seq(n, i => 0.0)) == 0.0
    decreases n
  {
    if n > 0 {
      assert seq(n, i => 0.0)[1..] == seq(n - 1, i => 0.0);
      ZeroSum(n - 1);
    }
  }

  /** With non-negative ideals and contribution, each sibling receives
      between 0 and the whole contribution, and a sibling with ideal 0
      receives 0. */
  lemma SplitBounds(ideals: seq<real>, contribution: real)
    requires AllNonNegative(ideals) && contribution >= 0.0
    ensures forall i :: 0 <= i < |ideals| ==> 0.0 <= Split(ideals, contribution)[i] <= contribution
    ensures forall i :: 0 <= i < |ideals| && ideals[i] == 0.0 ==> Split(ideals, contribution)[i] == 0.0
  {
    var total := Sum(ideals);
    SumNonNegative(ideals);
    forall i | 0 <= i < |ideals| ensures 0.0 <= Split(ideals, contribution)[i] <= contribution {
      if total != 0.0 {
        ElementAtMostSum(ideals, i);
        var q := ideals[i] / total;
        assert 0.0 <= q <= 1.0;
        assert Split(ideals, contribution)[i] == q * contribution;
      }
    }
  }

  /** `actual // price`: the whole number of shares the actual investment
      buys, Python's floor division on floats. */
  function Shares(actual: real, price: real): int
    requires price != 0.0
  {
    (actual / price).Floor
  }

  /** What is left of the actual investment after buying the shares. */
  function Remainder(actual: real, price: real): real
    requires price != 0.0
  {
    actual - Shares(actual, price) as real * price
  }

  /** With a positive price the shares are the largest whole number that
      the actual investment pays for, none when it is not positive, and the
      remainder is less than one share's price. */
  lemma SharesBounds(actual: real, price: real)
    requires price > 0.0
    ensures Shares(actual, price) as real * price <= actual < (Shares(actual, price) + 1) as real * price
    ensures actual >= 0.0 ==> Shares(actual, price) >= 0
    ensures 0.0 <= Remainder(actual, price) < price
  {
    var q := actual / price;
    var f := Shares(actual, price) as real;
    assert f <= q < f + 1.0;
    ScaleMonotone(f, q, price);
    ScaleMonotone(q, f + 1.0, price);
    calc {
      actual;
      q * price;
    <
      (f + 1.0) * price;
      (Shares(actual, price) + 1) as real * price;
    }
  }

  /** The remainders of siblings, summed: what a group (or, summed again,
      a wallet) has left once every asset's shares are bought. */
  function Remainders(actuals: seq<real>, prices: seq<real>): real
    requires |actuals| == |prices|
    requires forall i :: 0 <= i < |prices| ==> prices[i] != 0.0
    decreases |actuals|
  {
    if |actuals| == 0 then 0.0
    else Remainder(actuals[0], prices[0]) + Remainders(actuals[1..], prices[1..])
  }

  /** What the shares of siblings cost, summed. */
  function Bought(actuals: seq<real>, prices: seq<real>): real
    requires |actuals| == |prices|
    requires forall i :: 0 <= i < |prices| ==> prices[i] != 0.0
    decreases |actuals|
  {
    if |actuals| == 0 then 0.0
    else Shares(actuals[0], prices[0]) as real * prices[0] + Bought(actuals[1..], prices[1..])
  }

  /** What the siblings are to invest is what their shares cost plus what
      is left over. */
  lemma {:induction false} BoughtPlusRemainders(actuals: seq<real>, prices: seq<real>)
    requires |actuals| == |prices|
    requires forall i :: 0 <= i < |prices| ==> prices[i] != 0.0
    ensures Sum(actuals) == Bought(actuals, prices) + Remainders(actuals, prices)
    decreases |actuals|
  {
    if |actuals| > 0 {
      assert forall i :: 0 <= i < |prices[1..]| ==> prices[1..][i] == prices[i + 1];
      BoughtPlusRemainders(actuals[1..], prices[1..]);
    }
  }

  /** With positive prices the summed remainder is non-negative and less
      than one share of each asset; with non-negative actual investments it
      is at most what was to be invested. */
  lemma {:induction false} RemaindersBounds(actuals: seq<real>, prices: seq<real>)
    requires |actuals| == |prices|
    requires forall i :: 0 <= i < |prices| ==> prices[i] > 0.0
    ensures 0.0 <= Remainders(actuals, prices)
    ensures |prices| > 0 ==> Remainders(actuals, prices) < Sum(prices)
    ensures AllNonNegative(actuals) ==> Remainders(actuals, prices) <= Sum(actuals)
    decreases |actuals|
  {
    if |actuals| > 0 {
      assert forall i :: 0 <= i < |prices[1..]| ==> prices[1..][i] == prices[i + 1];
      RemaindersBounds(actuals[1..], prices[1..]);
      SharesBounds(actuals[0], prices[0]);
      if AllNonNegative(actuals) {
        assert AllNonNegative(actuals[1..]) by {
          forall i | 0 <= i < |actuals[1..]| ensures actuals[1..][i] >= 0.0 {
            assert actuals[1..][i] == actuals[i + 1];
          }
        }
        ScaleMonotone(0.0, Shares(actuals[0], prices[0]) as real, prices[0]);
      }
    }
  }

  /** The wallet's remainder: every group's summed remainder, summed again,
      with the prices of each group's assets in order. */
  function PlanRemainder(plan: seq<GroupPlan>, prices: seq<seq<real>>): real
    requires |plan| == |prices|
    requires forall j :: 0 <= j < |plan| ==> |prices[j]| == |plan[j].assets|
    requires forall j, i :: 0 <= j < |prices| && 0 <= i < |prices[j]| ==> prices[j][i] != 0.0
    decreases |plan|
  {
    if |plan| == 0 then 0.0
    else Remainders(AssetActuals(plan[0]), prices[0]) + PlanRemainder(plan[1..], prices[1..])
  }

  /** What the shares of the whole plan cost: every group's `Bought`,
      summed again. */
  function PlanBought(plan: seq<GroupPlan>, prices: seq<seq<real>>): real
    requires |plan| == |prices|
    requires forall j :: 0 <= j < |plan| ==> |prices[j]| == |plan[j].assets|
    requires forall j, i :: 0 <= j < |prices| && 0 <= i < |prices[j]| ==> prices[j][i] != 0.0
    decreases |plan|
  {
    if |plan| == 0 then 0.0
    else Bought(AssetActuals(plan[0]), prices[0]) + PlanBought(plan[1..], prices[1..])
  }

  /** Multiplying by a positive number keeps the order. */
  lemma ScaleMonotone(a: real, b: real, p: real)
    requires p > 0.0
    ensures a <= b ==> a * p <= b * p
    ensures a < b ==> a * p < b * p
    ensures (a + 1.0) * p == a * p + p
  {
  }

  /** An asset's inputs to the plan: its target participation and its
      total amount (price times quantity). */
  datatype AssetInput = AssetInput(target: real, total: real)

  /** A group's inputs: its target participation, its total amount and its
      assets in order. */
  datatype GroupInput = GroupInput(target: real, total: real, assets: seq<AssetInput>)

  /** What the engine computes for one asset and one group. */
  datatype AssetPlan = AssetPlan(ideal: real, actual: real)
  datatype GroupPlan = GroupPlan(ideal: real, actual: real, assets: seq<AssetPlan>)

  /** The ideals of a group's assets, computed once from the group's total
      and the wallet-level contribution. */
  function AssetIdeals(g: GroupInput, contribution: real): (r: seq<real>)
    ensures |r| == |g.assets|
  {
    seq(|g.assets|, i requires 0 <= i < |g.assets| =>
      Ideal(g.assets[i].target, g.total, contribution, g.assets[i].total))
  }

  /** The ideals of the wallet's groups. */
  function GroupIdeals(groups: seq<GroupInput>, walletTotal: real, contribution: real): (r: seq<real>)
    ensures |r| == |groups|
  {
    seq(|groups|, j requires 0 <= j < |groups| =>
      Ideal(groups[j].target, walletTotal, contribution, groups[j].total))
  }

  function Zip(ideals: seq<real>, actuals: seq<real>): (r: seq<AssetPlan>)
    requires |ideals| == |actuals|
    ensures |r| == |ideals|
  {
    seq(|ideals|, i requires 0 <= i < |ideals| => AssetPlan(ideals[i], actuals[i]))
  }

  /** One group of the plan: the group's actual investment, then the second
      pass re-splitting it among the assets by their frozen ideals. */
  function PlanGroup(g: GroupInput, ideal: real, actual: real, contribution: real): GroupPlan {
    var ideals := AssetIdeals(g, contribution);
    GroupPlan(ideal, actual, Zip(ideals, Split(ideals, actual)))
  }

  /** `WalletInvestmentSuggestion`: the first pass splits the contribution
      among the groups by their ideals; the second re-splits each group's
      actual investment among its assets, by the ideals the assets got from
      the wallet-level contribution. */
  function Plan(groups: seq<GroupInput>, walletTotal: real, contribution: real): (r: seq<GroupPlan>)
    ensures |r| == |groups|
  {
    var ideals := GroupIdeals(groups, walletTotal, contribution);
    var actuals := Split(ideals, contribution);
    seq(|groups|, j requires 0 <= j < |groups| => PlanGroup(groups[j], ideals[j], actuals[j], contribution))
  }

  function GroupActuals(plan: seq<GroupPlan>): (r: seq<real>)
    ensures |r| == |plan|
  {
    seq(|plan|, j requires 0 <= j < |plan| => plan[j].actual)
  }

  function AssetActuals(p: GroupPlan): (r: seq<real>)
    ensures |r| == |p.assets|
  {
    seq(|p.assets|, i requires 0 <= i < |p.assets| => p.assets[i].actual)
  }

  /** Entry j of the plan, in terms of the two splits. */
  lemma PlanAt(groups: seq<GroupInput>, walletTotal: real, contribution: real, j: nat)
    requires j < |groups|
    ensures var p := Plan(groups, walletTotal, contribution)[j];
      var ideals := GroupIdeals(groups, walletTotal, contribution);
      var assetIdeals := AssetIdeals(groups[j], contribution);
      && p.ideal == ideals[j] && p.actual == Split(ideals, contribution)[j]
      && |p.assets| == |assetIdeals|
      && (forall i :: 0 <= i < |p.assets| ==> p.assets[i].ideal == assetIdeals[i])
      && AssetActuals(p) == Split(assetIdeals, p.actual)
  {
  }

  /** Every ideal of the plan is non-negative. */
  lemma PlanIdealsNonNegative(groups: seq<GroupInput>, walletTotal: real, contribution: real)
    ensures forall j :: 0 <= j < |groups| ==> Plan(groups, walletTotal, contribution)[j].ideal >= 0.0
    ensures forall j, i :: 0 <= j < |groups| && 0 <= i < |groups[j].assets| ==>
      Plan(groups, walletTotal, contribution)[j].assets[i].ideal >= 0.0
  {
  }

  /** The first pass: the groups' actual investments are the split of the
      contribution by the groups' ideals; they add up to the contribution
      when some group is below target, and are all 0 otherwise. */
  lemma PlanConservesAmongGroups(groups: seq<GroupInput>, walletTotal: real, contribution: real)
    ensures var plan := Plan(groups, walletTotal, contribution);
      var ideals := GroupIdeals(groups, walletTotal, contribution);
      && GroupActuals(plan) == Split(ideals, contribution)
      && (Sum(ideals) != 0.0 ==> Sum(GroupActuals(plan)) == contribution)
      && (Sum(ideals) == 0.0 ==> forall j :: 0 <= j < |groups| ==> plan[j].actual == 0.0)
  {
    var plan := Plan(groups, walletTotal, contribution);
    var ideals := GroupIdeals(groups, walletTotal, contribution);
    assert GroupActuals(plan) == Split(ideals, contribution);
    if Sum(ideals) != 0.0 {
      SplitConserves(ideals, contribution);
    } else {
      SplitOfNothingNeeded(ideals, contribution);
    }
  }

  /** The second pass: a group's assets share out exactly the group's actual
      investment when one of them is below target, and all get 0 otherwise. */
  lemma PlanConservesWithinGroup(groups: seq<GroupInput>, walletTotal: real, contribution: real, j: nat)
    requires j < |groups|
    ensures var p := Plan(groups, walletTotal, contribution)[j];
      var ideals := AssetIdeals(groups[j], contribution);
      && (Sum(ideals) != 0.0 ==> Sum(AssetActuals(p)) == p.actual)
      && (Sum(ideals) == 0.0 ==> forall i :: 0 <= i < |p.assets| ==> p.assets[i].actual == 0.0)
  {
    var p := Plan(groups, walletTotal, contribution)[j];
    var ideals := AssetIdeals(groups[j], contribution);
    assert AssetActuals(p) == Split(ideals, p.actual);
    if Sum(ideals) != 0.0 {
      SplitConserves(ideals, p.actual);
    } else {
      SplitOfNothingNeeded(ideals, p.actual);
    }
  }

  /** Every asset's actual investment in the plan, summed group after group. */
  function PlanAssetSum(plan: seq<GroupPlan>): real
    decreases |plan|
  {
    if |plan| == 0 then 0.0 else Sum(AssetActuals(plan[0])) + PlanAssetSum(plan[1..])
  }

  /** When each group hands its whole actual investment on to its assets,
      the assets together invest what the groups do. */
  lemma {:induction false} PlanAssetSumOfPassingGroups(plan: seq<GroupPlan>)
    requires forall j :: 0 <= j < |plan| ==> Sum(AssetActuals(plan[j])) == plan[j].actual
    ensures PlanAssetSum(plan) == Sum(GroupActuals(plan))
    decreases |plan|
  {
    if |plan| > 0 {
      assert GroupActuals(plan)[1..] == GroupActuals(plan[1..]);
      assert forall j :: 0 <= j < |plan[1..]| ==> plan[1..][j] == plan[j + 1];
      PlanAssetSumOfPassingGroups(plan[1..]);
    }
  }

  /** Conservation over the whole plan: when some group is below target and
      every group whose assets are all at or above target receives nothing,
      the assets of all groups together receive exactly the contribution. */
  lemma PlanConservesOverall(groups: seq<GroupInput>, walletTotal: real, contribution: real)
    requires Sum(GroupIdeals(groups, walletTotal, contribution)) != 0.0
    requires forall j :: 0 <= j < |groups| && Sum(AssetIdeals(groups[j], contribution)) == 0.0 ==>
      Plan(groups, walletTotal, contribution)[j].actual == 0.0
    ensures PlanAssetSum(Plan(groups, walletTotal, contribution)) == contribution
  {
    var plan := Plan(groups, walletTotal, contribution);
    forall j | 0 <= j < |plan|
      ensures Sum(AssetActuals(plan[j])) == plan[j].actual
    {
      PlanConservesWithinGroup(groups, walletTotal, contribution, j);
      var ideals := AssetIdeals(groups[j], contribution);
      if Sum(ideals) == 0.0 {
        assert AssetActuals(plan[j]) == Split(ideals, plan[j].actual);
        SplitOfNothingNeeded(ideals, plan[j].actual);
      }
    }
    PlanAssetSumOfPassingGroups(plan);
    PlanConservesAmongGroups(groups, walletTotal, contribution);
  }

  /** The whole plan's actual investment is what its shares cost plus its
      remainder. */
  lemma {:induction false} PlanBoughtPlusRemainder(plan: seq<GroupPlan>, prices: seq<seq<real>>)
    requires |plan| == |prices|
    requires forall j :: 0 <= j < |plan| ==> |prices[j]| == |plan[j].assets|
    requires forall j, i :: 0 <= j < |prices| && 0 <= i < |prices[j]| ==> prices[j][i] != 0.0
    ensures PlanAssetSum(plan) == PlanBought(plan, prices) + PlanRemainder(plan, prices)
    decreases |plan|
  {
    if |plan| > 0 {
      BoughtPlusRemainders(AssetActuals(plan[0]), prices[0]);
      assert forall j :: 0 <= j < |plan[1..]| ==> plan[1..][j] == plan[j + 1] && prices[1..][j] == prices[j + 1];
      PlanBoughtPlusRemainder(plan[1..], prices[1..]);
    }
  }

  function AssetTargets(g: GroupInput): (r: seq<real>)
    ensures |r| == |g.assets|
  {
    seq(|g.assets|, i requires 0 <= i < |g.assets| => g.assets[i].target)
  }

  function AssetTotals(g: GroupInput): (r: seq<real>)
    ensures |r| == |g.assets|
  {
    seq(|g.assets|, i requires 0 <= i < |g.assets| => g.assets[i].total)
  }

  function GroupTargets(groups: seq<GroupInput>): (r: seq<real>)
    ensures |r| == |groups|
  {
    seq(|groups|, j requires 0 <= j < |groups| => groups[j].target)
  }

  function GroupTotals(groups: seq<GroupInput>): (r: seq<real>)
    ensures |r| == |groups|
  {
    seq(|groups|, j requires 0 <= j < |groups| => groups[j].total)
  }

  /** Lower bounds add up: amounts each at least its share less its total
      sum to at least the shares' sum less the totals' sum. */
  lemma {:induction false} SumAboveDifferences(xs: seq<real>, shares: seq<real>, totals: seq<real>)
    requires |xs| == |shares| == |totals|
    requires forall i :: 0 <= i < |xs| ==> xs[i] >= shares[i] - totals[i]
    ensures Sum(xs) >= Sum(shares) - Sum(totals)
    decreases |xs|
  {
    if |xs| > 0 {
      assert forall i :: 0 <= i < |xs| - 1 ==>
        xs[1..][i] == xs[i + 1] && shares[1..][i] == shares[i + 1] && totals[1..][i] == totals[i + 1];
      SumAboveDifferences(xs[1..], shares[1..], totals[1..]);
    }
  }

  /** Each sibling's target share of `base`. */
  function TargetShares(targets: seq<real>, base: real): (r: seq<real>)
    ensures |r| == |targets|
  {
    seq(|targets|, i requires 0 <= i < |targets| => 0.01 * targets[i] * base)
  }

  /** The shares sum to the total target share of `base`. */
  lemma {:induction false} TargetSharesSum(targets: seq<real>, base: real)
    ensures Sum(TargetShares(targets, base)) == 0.01 * Sum(targets) * base
    decreases |targets|
  {
    if |targets| > 0 {
      var shares, later := TargetShares(targets, base), TargetShares(targets[1..], base);
      forall i | 0 <= i < |later|
        ensures shares[1..][i] == later[i]
      {
        assert targets[1..][i] == targets[i + 1];
      }
      assert shares[1..] == later;
      TargetSharesSum(targets[1..], base);
      var t, rest := targets[0], Sum(targets[1..]);
      assert 0.01 * (t + rest) * base == 0.01 * t * base + 0.01 * rest * base;
    }
  }

  /** Targets adding up to 100 claim the whole of `base`. */
  lemma WholeShare(targetSum: real, base: real)
    requires targetSum == 100.0
    ensures 0.01 * targetSum * base == base
  {
  }

  /** With targets adding up to 100 the shares make up the whole of `base`. */
  lemma WholeTargetShares(targets: seq<real>, base: real)
    requires Sum(targets) == 100.0
    ensures Sum(TargetShares(targets, base)) == base
  {
    TargetSharesSum(targets, base);
    WholeShare(Sum(targets), base);
  }

  /** Each ideal is at least its share of the grown parent less its own total. */
  lemma IdealsAboveShares(ideals: seq<real>, targets: seq<real>, totals: seq<real>, parentTotal: real, contribution: real)
    requires |ideals| == |targets| == |totals|
    requires forall i :: 0 <= i < |ideals| ==> ideals[i] == Ideal(targets[i], parentTotal, contribution, totals[i])
    ensures forall i :: 0 <= i < |ideals| ==> ideals[i] >= TargetShares(targets, parentTotal + contribution)[i] - totals[i]
  {
  }

  /** Siblings whose targets add up to 100 and whose totals make up the
      parent's total need, between them, at least the contribution. */
  lemma IdealsCover(ideals: seq<real>, targets: seq<real>, totals: seq<real>, parentTotal: real, contribution: real)
    requires |ideals| == |targets| == |totals|
    requires forall i :: 0 <= i < |ideals| ==> ideals[i] == Ideal(targets[i], parentTotal, contribution, totals[i])
    requires Sum(targets) == 100.0 && Sum(totals) == parentTotal
    ensures Sum(ideals) >= contribution
  {
    IdealsAboveShares(ideals, targets, totals, parentTotal, contribution);
    WholeTargetShares(targets, parentTotal + contribution);
    SumAboveDifferences(ideals, TargetShares(targets, parentTotal + contribution), totals);
  }

  /** The whole contribution reaches the assets: a positive contribution to
      a wallet whose group targets add up to 100 and whose groups' asset
      targets each add up to 100, with totals that add up. */
  lemma PlanDistributesContribution(groups: seq<GroupInput>, walletTotal: real, contribution: real)
    requires contribution > 0.0
    requires Sum(GroupTargets(groups)) == 100.0 && Sum(GroupTotals(groups)) == walletTotal
    requires forall j :: 0 <= j < |groups| ==>
      Sum(AssetTargets(groups[j])) == 100.0 && Sum(AssetTotals(groups[j])) == groups[j].total
    ensures PlanAssetSum(Plan(groups, walletTotal, contribution)) == contribution
  {
    IdealsCover(GroupIdeals(groups, walletTotal, contribution), GroupTargets(groups), GroupTotals(groups),
      walletTotal, contribution);
    forall j | 0 <= j < |groups|
      ensures Sum(AssetIdeals(groups[j], contribution)) != 0.0
    {
      IdealsCover(AssetIdeals(groups[j], contribution), AssetTargets(groups[j]), AssetTotals(groups[j]),
        groups[j].total, contribution);
    }
    PlanConservesOverall(groups, walletTotal, contribution);
  }

  /** With a non-negative contribution every actual investment of the plan
      lies between 0 and the contribution, and a node already at or above
      its target (ideal 0) receives nothing. */
  lemma PlanActualsBounded(groups: seq<GroupInput>, walletTotal: real, contribution: real)
    requires contribution >= 0.0
    ensures var plan := Plan(groups, walletTotal, contribution);
      && (forall j :: 0 <= j < |groups| ==> 0.0 <= plan[j].actual <= contribution)
      && (forall j :: 0 <= j < |groups| && plan[j].ideal == 0.0 ==> plan[j].actual == 0.0)
      && (forall j, i :: 0 <= j < |groups| && 0 <= i < |plan[j].assets| ==>
            0.0 <= plan[j].assets[i].actual <= plan[j].actual)
      && (forall j, i :: 0 <= j < |groups| && 0 <= i < |plan[j].assets| && plan[j].assets[i].ideal == 0.0 ==>
            plan[j].assets[i].actual == 0.0)
  {
    var plan := Plan(groups, walletTotal, contribution);
    var ideals := GroupIdeals(groups, walletTotal, contribution);
    SplitBounds(ideals, contribution);
    forall j | 0 <= j < |groups|
      ensures forall i :: 0 <= i < |plan[j].assets| ==> 0.0 <= plan[j].assets[i].actual <= plan[j].actual
      ensures forall i :: 0 <= i < |plan[j].assets| && plan[j].assets[i].ideal == 0.0 ==> plan[j].assets[i].actual == 0.0
    {
      assert plan[j].actual == Split(ideals, contribution)[j];
      SplitBounds(AssetIdeals(groups[j], contribution), plan[j].actual);
    }
  }
}
