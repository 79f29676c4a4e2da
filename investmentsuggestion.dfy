/** The investment suggestion tree: one suggestion per group of a wallet and
    one per asset of each group, each holding an ideal investment fixed at
    construction and an actual investment that starts unset and is filled in
    by the two passes of `WalletSuggestion.Create`. */
module Suggestions {
  import opened Common
  import opened Assets
  import opened InvestmentGroups
  import opened Wallets
  import opened Allocation

  /** The plan inputs of priced assets: target participation and total amount. */
  function AssetInputs(assets: seq<Asset>): (r: seq<AssetInput>)
    reads assets
    requires AllPriced(assets)
    ensures |r| == |assets|
    ensures forall i :: 0 <= i < |assets| ==>
      r[i] == AssetInput(assets[i].target as real, assets[i].TotalAmount().value)
    decreases |assets|
  {
    if |assets| == 0 then []
    else
      assert forall i :: 1 <= i < |assets| ==> assets[i] == assets[1..][i - 1];
      [AssetInput(assets[0].target as real, assets[0].TotalAmount().value)] + AssetInputs(assets[1..])
  }

  /** The plan inputs of a group whose assets are all priced. */
  function GroupInputOf(g: InvestmentGroup): GroupInput
    reads g, g.assets
    requires AllPriced(g.assets)
  {
    GroupInput(g.target as real, AssetsTotal(g.assets).value, AssetInputs(g.assets))
  }

  lemma AllPricedConcat(s: seq<Asset>, t: seq<Asset>)
    requires AllPriced(s + t)
    ensures AllPriced(s) && AllPriced(t)
  {
    assert forall i :: 0 <= i < |s| ==> s[i] == (s + t)[i];
    assert forall i :: 0 <= i < |t| ==> t[i] == (s + t)[|s| + i];
  }

  /** The plan inputs of a wallet whose assets are all priced, in group order. */
  function GroupInputs(groups: seq<InvestmentGroup>): (r: seq<GroupInput>)
    reads groups, Members(groups)
    requires GroupsTotal(groups).Ok?
    ensures |r| == |groups|
    decreases |groups|
  {
    if |groups| == 0 then []
    else
      AllAssetsCons(groups);
      assert Members(groups[1..]) <= Members(groups);
      AllPricedConcat(groups[0].assets, AllAssets(groups[1..]));
      [GroupInputOf(groups[0])] + GroupInputs(groups[1..])
  }

  /** Group j of a priced wallet is priced, and its inputs are entry j. */
  lemma {:induction false} GroupInputsAt(groups: seq<InvestmentGroup>, j: nat)
    requires GroupsTotal(groups).Ok? && j < |groups|
    ensures AllPriced(groups[j].assets)
    ensures GroupInputs(groups)[j] == GroupInputOf(groups[j])
    decreases j
  {
    AllAssetsCons(groups);
    assert Members(groups[1..]) <= Members(groups);
    AllPricedConcat(groups[0].assets, AllAssets(groups[1..]));
    if j > 0 {
      GroupInputsAt(groups[1..], j - 1);
    }
  }
  /** A group's plan inputs add up: the asset totals to the group total and
      the asset targets to the sum the participation check tests. */
  lemma {:induction false} AssetInputsSums(assets: seq<Asset>, target: real, total: real)
    requires AllPriced(assets)
    ensures Sum(AssetTotals(GroupInput(target, total, AssetInputs(assets)))) == AssetsTotal(assets).value
    ensures Sum(AssetTargets(GroupInput(target, total, AssetInputs(assets)))) == SumTargets(assets)
    decreases |assets|
  {
    if |assets| > 0 {
      var rest := assets[1..];
      assert forall i :: 0 <= i < |rest| ==> rest[i] == assets[i + 1];
      var g, h := GroupInput(target, total, AssetInputs(assets)), GroupInput(target, total, AssetInputs(rest));
      assert AssetTotals(g)[1..] == AssetTotals(h);
      assert AssetTargets(g)[1..] == AssetTargets(h);
      AssetInputsSums(rest, target, total);
      assert AssetsTotal(assets).value == assets[0].TotalAmount().value + AssetsTotal(rest).value;
      assert AssetTotals(g)[0] == assets[0].TotalAmount().value;
    }
  }

  /** The wallet's plan inputs add up in the same way: the group totals to
      the wallet total and the group targets to the groups' sum. */
  lemma {:induction false} GroupInputsSums(groups: seq<InvestmentGroup>)
    requires GroupsTotal(groups).Ok?
    ensures Sum(GroupTotals(GroupInputs(groups))) == GroupsTotal(groups).value
    ensures Sum(GroupTargets(GroupInputs(groups))) == SumGroupTargets(groups)
    decreases |groups|
  {
    if |groups| > 0 {
      AllAssetsCons(groups);
      assert Members(groups[1..]) <= Members(groups);
      AllPricedConcat(groups[0].assets, AllAssets(groups[1..]));
      var inputs := GroupInputs(groups);
      assert inputs[1..] == GroupInputs(groups[1..]);
      assert GroupTotals(inputs)[1..] == GroupTotals(GroupInputs(groups[1..]));
      assert GroupTargets(inputs)[1..] == GroupTargets(GroupInputs(groups[1..]));
      GroupInputsSums(groups[1..]);
    }
  }

  /** The suggestion hands out the whole of a positive contribution to a
      priced wallet whose group targets add up to 100 and whose groups'
      asset targets each add up to 100. */
  lemma SuggestionDistributesContribution(groups: seq<InvestmentGroup>, contribution: real)
    requires GroupsTotal(groups).Ok? && contribution > 0.0
    requires SumGroupTargets(groups) == 100.0
    requires forall j :: 0 <= j < |groups| ==> SumTargets(groups[j].assets) == 100.0
    ensures PlanAssetSum(Plan(GroupInputs(groups), GroupsTotal(groups).value, contribution)) == contribution
  {
    var inputs := GroupInputs(groups);
    GroupInputsSums(groups);
    forall j | 0 <= j < |groups|
      ensures Sum(AssetTargets(inputs[j])) == 100.0 && Sum(AssetTotals(inputs[j])) == inputs[j].total
    {
      GroupInputsAt(groups, j);
      AssetInputsSums(groups[j].assets, groups[j].target as real, AssetsTotal(groups[j].assets).value);
    }
    PlanDistributesContribution(inputs, GroupsTotal(groups).value, contribution);
  }


  class AssetSuggestion {
    const asset: Asset
    var contribution: real
    const ideal: real
    var actual: Option<real>

    /** `_AssetSuggestion(asset, total_amount, new_contribution)`: the ideal
        measured against the group's total after the contribution. Its one
        caller has already read the group's total, so the asset is priced. */
    constructor (asset: Asset, groupTotal: real, contribution: real)
      requires asset.price.Some?
      ensures this.asset == asset && this.contribution == contribution && actual == None
      ensures ideal == Ideal(asset.target as real, groupTotal, contribution, asset.TotalAmount().value)
    {
      this.asset := asset;
      this.contribution := contribution;
      ideal := Ideal(asset.target as real, groupTotal, contribution, asset.TotalAmount().value);
      actual := None;
    }

    /** `set_new_contribution`. */
    method SetNewContribution(c: real)
      modifies this`contribution
      ensures contribution == c
    {
      contribution := c;
    }

    /** `_calculate_actual_investing`. */
    method CalculateActual(totalIdeal: real)
      modifies this`actual
      ensures actual == Some(Actual(ideal, totalIdeal, contribution))
    {
      if totalIdeal == 0.0 {
        actual := Some(0.0);
        return;
      }
      var value := ideal / totalIdeal * contribution;
      assert value == Actual(ideal, totalIdeal, contribution);
      actual := Some(value);
    }

    /** `get_suggested_investment`: `SuggestionNotReady` until the actual
        investment has been computed. */
    function SuggestedInvestment(): (r: Result<real, Error>)
      reads this
      ensures r.Ok? <==> actual.Some?
      ensures r.Ok? ==> Some(r.value) == actual
      ensures r.Err? ==> r.error == SuggestionNotReady
    {
      if actual.None? then Err(SuggestionNotReady) else Ok(actual.value)
    }

    /** `get_suggested_shares_buying`: the actual investment floor-divided by
        the price; the not-ready guard comes first, then the price lookup,
        and a price of 0 is a division by zero. */
    function SuggestedShares(): (r: Result<int, Error>)
      reads this, asset
      ensures actual.None? ==> r == Err(SuggestionNotReady)
      ensures actual.Some? && asset.price.None? ==> r == Err(AssetWithNoPrice(asset.code))
      ensures actual.Some? && asset.price == Some(0.0) ==> r == Err(DivisionByZero(asset.code))
      ensures r.Ok? <==> actual.Some? && asset.price.Some? && asset.price.value != 0.0
      ensures r.Ok? && asset.price.value > 0.0 ==>
        r.value as real * asset.price.value <= actual.value < (r.value + 1) as real * asset.price.value
      ensures r.Ok? && asset.price.value > 0.0 && actual.value >= 0.0 ==> r.value >= 0
    {
      var investment :- SuggestedInvestment();
      var price :- asset.GetPrice();
      if price == 0.0 then Err(DivisionByZero(asset.code))
      else
        if price > 0.0 then SharesBounds(investment, price); Ok(Shares(investment, price))
        else Ok(Shares(investment, price))
    }

    /** The remainder: what is left of the actual investment once the
        suggested shares are paid for at the current price. */
    function Remainder(): (r: Result<real, Error>)
      reads this, asset
      ensures r.Ok? <==> SuggestedShares().Ok?
      ensures r.Err? ==> r.error == SuggestedShares().error
      ensures r.Ok? ==> r.value + SuggestedShares().value as real * asset.price.value == actual.value
      ensures r.Ok? && asset.price.value > 0.0 ==> 0.0 <= r.value < asset.price.value
    {
      var shares :- SuggestedShares();
      if asset.price.value > 0.0 then
        SharesBounds(actual.value, asset.price.value);
        Ok(actual.value - shares as real * asset.price.value)
      else Ok(actual.value - shares as real * asset.price.value)
    }
  }

  class GroupSuggestion {
    const group: InvestmentGroup
    var contribution: real
    const ideal: real
    var actual: Option<real>
    const children: seq<AssetSuggestion>

    constructor (group: InvestmentGroup, ideal: real, contribution: real, children: seq<AssetSuggestion>)
      ensures this.group == group && this.ideal == ideal && this.contribution == contribution
      ensures this.children == children && actual == None
    {
      this.group := group;
      this.ideal := ideal;
      this.contribution := contribution;
      this.children := children;
      actual := None;
    }

    /** One suggestion per asset: the children are distinct objects. */
    ghost predicate Distinct() {
      forall i, k :: 0 <= i < k < |children| ==> children[i] != children[k]
    }

    /** The frozen ideals of the children, in order. */
    function ChildIdeals(): (r: seq<real>)
      ensures |r| == |children|
      ensures forall i :: 0 <= i < |children| ==> r[i] == children[i].ideal
    {
      seq(|children|, i requires 0 <= i < |children| => children[i].ideal)
    }

    /** The children hold these actual investments and this contribution. */
    ghost predicate ChildrenAre(actuals: seq<real>, contribution: real)
      reads children
    {
      && |actuals| == |children|
      && forall i :: 0 <= i < |children| ==>
           children[i].actual == Some(actuals[i]) && children[i].contribution == contribution
    }

    /** The group's suggestion carries exactly what the plan says for it. */
    ghost predicate Follows(p: GroupPlan)
      reads this, children
    {
      && ideal == p.ideal && actual == Some(p.actual)
      && |children| == |p.assets|
      && (forall i :: 0 <= i < |children| ==> children[i].ideal == p.assets[i].ideal)
      && ChildrenAre(AssetActuals(p), p.actual)
    }

    /** `_InvestmentGroupSuggestion(group, total_amount, new_contribution)`:
        the group's ideal against the wallet total, one asset suggestion per
        asset against the group's total, then every asset's actual investment
        split from the same contribution. An unpriced asset makes the group's
        total, and so the construction, fail. */
    static method Create(group: InvestmentGroup, walletTotal: real, contribution: real) returns (r: Result<GroupSuggestion, Error>)
      ensures r.Err? <==> !AllPriced(group.assets)
      ensures r.Err? ==> r.error == group.TotalAmount().error
      ensures r.Ok? ==> old(AllPriced(group.assets)) && var g := r.value; var input := old(GroupInputOf(group));
        && fresh(g) && g.group == group && g.contribution == contribution && g.actual == None
        && g.ideal == Ideal(group.target as real, walletTotal, contribution, input.total)
        && |g.children| == |group.assets| && g.Distinct()
        && (forall i :: 0 <= i < |g.children| ==> fresh(g.children[i]) && g.children[i].asset == group.assets[i])
        && g.ChildIdeals() == AssetIdeals(input, contribution)
        && g.ChildrenAre(Split(AssetIdeals(input, contribution), contribution), contribution)
    {
      var groupTotal :- group.TotalAmount();
      var ideal := Ideal(group.target as real, walletTotal, contribution, groupTotal);
      ghost var input := GroupInputOf(group);
      var children := BuildChildren(group.assets, groupTotal, contribution);
      var g := new GroupSuggestion(group, ideal, contribution, children);
      assert g.ChildIdeals() == AssetIdeals(input, contribution);
      g.CalculateChildren(contribution);
      return Ok(g);
    }

    /** One new asset suggestion per asset, in order, each with its ideal
        against the group's total; none has an actual investment yet. */
    static method BuildChildren(assets: seq<Asset>, groupTotal: real, contribution: real)
      returns (children: seq<AssetSuggestion>)
      requires AllPriced(assets)
      ensures |children| == |assets|
      ensures forall k :: 0 <= k < |assets| ==>
        && fresh(children[k]) && children[k].asset == assets[k]
        && children[k].ideal == Ideal(assets[k].target as real, groupTotal, contribution, assets[k].TotalAmount().value)
        && children[k].contribution == contribution && children[k].actual == None
      ensures forall k, l :: 0 <= k < l < |children| ==> children[k] != children[l]
    {
      children := [];
      for i := 0 to |assets|
        invariant |children| == i
        invariant forall k :: 0 <= k < i ==>
          && fresh(children[k]) && children[k].asset == assets[k]
          && children[k].ideal == Ideal(assets[k].target as real, groupTotal, contribution, assets[k].TotalAmount().value)
          && children[k].contribution == contribution && children[k].actual == None
        invariant forall k, l :: 0 <= k < l < i ==> children[k] != children[l]
      {
        var s := new AssetSuggestion(assets[i], groupTotal, contribution);
        children := children + [s];
      }
    }

    /** The constructor's loop: every child's actual investment, split from
        the contribution the children already hold by their ideals. */
    method CalculateChildren(ghost c: real)
      requires Distinct()
      requires forall k :: 0 <= k < |children| ==> children[k].contribution == c
      modifies children
      ensures ChildrenAre(Split(ChildIdeals(), c), c)
    {
      var total := Sum(ChildIdeals());
      for i := 0 to |children|
        invariant forall k :: 0 <= k < |children| ==> children[k].contribution == c
        invariant forall k :: 0 <= k < i ==> children[k].actual == Some(Actual(children[k].ideal, total, c))
      {
        children[i].CalculateActual(total);
      }
    }

    /** `_calculate_actual_investing` of the group. */
    method CalculateActual(totalIdeal: real)
      modifies this`actual
      ensures actual == Some(Actual(ideal, totalIdeal, contribution))
    {
      if totalIdeal == 0.0 {
        actual := Some(0.0);
        return;
      }
      var value := ideal / totalIdeal * contribution;
      assert value == Actual(ideal, totalIdeal, contribution);
      actual := Some(value);
    }

    /** `get_suggested_investment` of the group. */
    function SuggestedInvestment(): (r: Result<real, Error>)
      reads this
      ensures r.Ok? <==> actual.Some?
      ensures r.Ok? ==> Some(r.value) == actual
      ensures r.Err? ==> r.error == SuggestionNotReady
    {
      if actual.None? then Err(SuggestionNotReady) else Ok(actual.value)
    }

    /** `update_contribution_value`: every child takes the new contribution
        and re-splits it by the ideals it was built with. */
    method UpdateContributionValue(value: real)
      requires Distinct()
      modifies children
      ensures ChildrenAre(Split(ChildIdeals(), value), value)
    {
      var total := Sum(ChildIdeals());
      for i := 0 to |children|
        invariant forall k :: 0 <= k < i ==>
          children[k].contribution == value && children[k].actual == Some(Actual(children[k].ideal, total, value))
      {
        children[i].SetNewContribution(value);
        children[i].CalculateActual(total);
      }
    }

    /** The group's remainder: its assets' remainders summed; the first
        asset whose remainder cannot be read fails it. */
    function Remainder(): (r: Result<real, Error>)
      reads this, children, set i | 0 <= i < |children| :: children[i].asset
      ensures r.Ok? <==> forall i :: 0 <= i < |children| ==> children[i].Remainder().Ok?
    {
      RemainderSum(children)
    }

    /** `__getitem__`: the suggestion of an asset of the group, `KeyError`
        for any other asset. */
    function Get(a: Asset): (r: Result<AssetSuggestion, Error>)
      ensures r.Ok? <==> exists i :: 0 <= i < |children| && children[i].asset == a
      ensures r.Ok? ==> r.value in children && r.value.asset == a
      ensures r.Err? ==> r.error == KeyError
    {
      FindAsset(children, a)
    }
  }

  /** The remainders of asset suggestions, summed in order; the first one
      that cannot be read fails the sum with its error. */
  function RemainderSum(xs: seq<AssetSuggestion>): (r: Result<real, Error>)
    reads set i | 0 <= i < |xs| :: xs[i], set i | 0 <= i < |xs| :: xs[i].asset
    ensures r.Ok? <==> forall i :: 0 <= i < |xs| ==> xs[i].Remainder().Ok?
    ensures r.Err? ==> exists i :: 0 <= i < |xs| && xs[i].Remainder() == Err(r.error)
    decreases |xs|
  {
    if |xs| == 0 then Ok(0.0)
    else
      var first :- xs[0].Remainder();
      var rest := RemainderSum(xs[1..]);
      assert forall i :: 1 <= i < |xs| ==> xs[i] == xs[1..][i - 1];
      if rest.Err? then Err(rest.error) else Ok(first + rest.value)
  }

  /** Asset suggestions holding these actual investments, for assets at
      these prices, leave the summed remainder of those values. */
  lemma {:induction false} RemainderSumOf(xs: seq<AssetSuggestion>, actuals: seq<real>, prices: seq<real>)
    requires |xs| == |actuals| == |prices|
    requires forall i :: 0 <= i < |xs| ==>
      xs[i].actual == Some(actuals[i]) && xs[i].asset.price == Some(prices[i]) && prices[i] != 0.0
    ensures RemainderSum(xs) == Ok(Remainders(actuals, prices))
    decreases |xs|
  {
    if |xs| > 0 {
      assert forall i :: 1 <= i < |xs| ==> xs[i] == xs[1..][i - 1] && prices[i] == prices[1..][i - 1];
      RemainderSumOf(xs[1..], actuals[1..], prices[1..]);
      var x := xs[0];
      assert x.SuggestedInvestment() == Ok(actuals[0]) && x.asset.GetPrice() == Ok(prices[0]);
      assert x.SuggestedShares() == Ok(Shares(actuals[0], prices[0]));
      assert x.Remainder().Ok?;
      assert x.Remainder().value == actuals[0] - Shares(actuals[0], prices[0]) as real * prices[0];
      assert x.Remainder() == Ok(Remainder(actuals[0], prices[0]));
    }
  }

  /** A group suggestion that follows its plan, with its assets priced at
      `prices`, has the plan's summed remainder for the group. */
  lemma GroupRemainderOfPlan(g: GroupSuggestion, p: GroupPlan, prices: seq<real>)
    requires g.Follows(p) && |prices| == |g.children|
    requires forall i :: 0 <= i < |prices| ==> g.children[i].asset.price == Some(prices[i]) && prices[i] != 0.0
    ensures g.Remainder() == Ok(Remainders(AssetActuals(p), prices))
  {
    RemainderSumOf(g.children, AssetActuals(p), prices);
  }

  /** The remainders of group suggestions, summed in order; the first one
      that cannot be read fails the sum with its error. */
  function GroupRemainderSum(gs: seq<GroupSuggestion>): (r: Result<real, Error>)
    reads set m | 0 <= m < |gs| :: gs[m], Nodes(gs), set x | x in Nodes(gs) :: x.asset
    ensures r.Ok? <==> forall m :: 0 <= m < |gs| ==> gs[m].Remainder().Ok?
    ensures r.Err? ==> exists m :: 0 <= m < |gs| && gs[m].Remainder() == Err(r.error)
    decreases |gs|
  {
    if |gs| == 0 then Ok(0.0)
    else
      assert forall i :: 0 <= i < |gs[0].children| ==> gs[0].children[i] in Nodes(gs);
      var first :- gs[0].Remainder();
      assert forall m :: 1 <= m < |gs| ==> gs[m] == gs[1..][m - 1];
      assert Nodes(gs[1..]) <= Nodes(gs) by {
        forall x | x in Nodes(gs[1..]) ensures x in Nodes(gs) {
          var m, i :| 0 <= m < |gs[1..]| && 0 <= i < |gs[1..][m].children| && x == gs[1..][m].children[i];
          assert x == gs[m + 1].children[i];
        }
      }
      var rest := GroupRemainderSum(gs[1..]);
      if rest.Err? then Err(rest.error) else Ok(first + rest.value)
  }

  /** Group suggestions that follow their plans, with their assets priced
      at `prices`, leave the plan's remainder. */
  lemma {:induction false} GroupRemainderSumOf(gs: seq<GroupSuggestion>, plan: seq<GroupPlan>, prices: seq<seq<real>>)
    requires |gs| == |plan| == |prices|
    requires forall j :: 0 <= j < |gs| ==> gs[j].Follows(plan[j]) && |prices[j]| == |gs[j].children| == |plan[j].assets|
    requires forall j, i :: 0 <= j < |gs| && 0 <= i < |prices[j]| ==>
      gs[j].children[i].asset.price == Some(prices[j][i]) && prices[j][i] != 0.0
    ensures GroupRemainderSum(gs) == Ok(PlanRemainder(plan, prices))
    decreases |gs|
  {
    if |gs| > 0 {
      GroupRemainderOfPlan(gs[0], plan[0], prices[0]);
      assert forall j :: 1 <= j < |gs| ==> gs[j] == gs[1..][j - 1] && prices[j] == prices[1..][j - 1];
      GroupRemainderSumOf(gs[1..], plan[1..], prices[1..]);
    }
  }

  /** A group suggestion that follows its plan is ready, and so are all its
      asset suggestions: each answers the plan's actual investment. */
  lemma ReadyWhenFollowing(g: GroupSuggestion, p: GroupPlan)
    requires g.Follows(p)
    ensures g.SuggestedInvestment() == Ok(p.actual)
    ensures forall i :: 0 <= i < |g.children| ==> g.children[i].SuggestedInvestment() == Ok(p.assets[i].actual)
  {
    forall i | 0 <= i < |g.children| ensures g.children[i].actual == Some(p.assets[i].actual) {
      assert AssetActuals(p)[i] == p.assets[i].actual;
    }
  }

  /** The first suggestion of `a` among `xs`. */
  function FindAsset(xs: seq<AssetSuggestion>, a: Asset): (r: Result<AssetSuggestion, Error>)
    ensures r.Ok? <==> exists i :: 0 <= i < |xs| && xs[i].asset == a
    ensures r.Ok? ==> r.value in xs && r.value.asset == a
    ensures r.Err? ==> r.error == KeyError
  {
    if |xs| == 0 then Err(KeyError)
    else if xs[0].asset == a then Ok(xs[0])
    else
      var r := FindAsset(xs[1..], a);
      assert forall i :: 1 <= i < |xs| ==> xs[i] == xs[1..][i - 1];
      r
  }

  class WalletSuggestion {
    const children: seq<GroupSuggestion>

    constructor (children: seq<GroupSuggestion>)
      ensures this.children == children
    {
      this.children := children;
    }

    /** `__len__`: one suggestion per group. */
    function Length(): nat {
      |children|
    }

    /** `__getitem__`: the suggestion of a group of the wallet, `KeyError`
        for any other group. */
    function Get(g: InvestmentGroup): (r: Result<GroupSuggestion, Error>)
      ensures r.Ok? <==> exists j :: 0 <= j < |children| && children[j].group == g
      ensures r.Ok? ==> r.value in children && r.value.group == g
      ensures r.Err? ==> r.error == KeyError
    {
      FindGroup(children, g)
    }

    /** The wallet's remainder: its groups' remainders summed; the first
        group whose remainder cannot be read fails it. */
    function Remainder(): (r: Result<real, Error>)
      reads set m | 0 <= m < |children| :: children[m], Nodes(children), set x | x in Nodes(children) :: x.asset
      ensures r.Ok? <==> forall m :: 0 <= m < |children| ==> children[m].Remainder().Ok?
    {
      GroupRemainderSum(children)
    }

    /** `WalletInvestmentSuggestion(wallet, new_contribution)`. With no
        groups nothing is computed. Otherwise the wallet total is read (the
        first unpriced asset of the wallet fails the construction), the
        groups' suggestions are built, the first pass splits the contribution
        among the groups, and the second pass re-splits each group's actual
        investment among its assets: the result is `Plan` of the wallet. */
    static method Create(w: Wallet, contribution: real) returns (r: Result<WalletSuggestion, Error>)
      requires forall j, k :: 0 <= j < k < |w.groups| ==> w.groups[j] != w.groups[k]
      requires forall j, i, k :: 0 <= j < |w.groups| && 0 <= i < k < |w.groups[j].assets| ==>
        w.groups[j].assets[i] != w.groups[j].assets[k]
      ensures r.Err? <==> |w.groups| > 0 && old(w.TotalAmount()).Err?
      ensures r.Err? ==> r.error == old(w.TotalAmount()).error
      ensures r.Ok? ==> old(w.TotalAmount()).Ok? && var s := r.value;
        var plan := old(Plan(GroupInputs(w.groups), w.TotalAmount().value, contribution));
        && fresh(s) && |s.children| == |w.groups|
        && (forall j :: 0 <= j < |w.groups| ==> s.children[j].group == w.groups[j] && s.children[j].Follows(plan[j]))
        && (forall j :: 0 <= j < |w.groups| ==> Owns(s.children[j], old(w.groups[j].assets)))
    {
      if |w.groups| == 0 {
        var s := new WalletSuggestion([]);
        return Ok(s);
      }
      var walletTotal :- w.TotalAmount();
      ghost var inputs := GroupInputs(w.groups);
      ghost var lists := AssetLists(w.groups);
      forall j | 0 <= j < |w.groups|
        ensures AllPriced(w.groups[j].assets) && inputs[j] == GroupInputOf(w.groups[j])
      {
        GroupInputsAt(w.groups, j);
      }
      var s := Suggest(w.groups, walletTotal, contribution, inputs, lists);
      return Ok(s);
    }

    /** The construction proper, on priced groups: build the group
        suggestions, then run the two passes. */
    static method Suggest(groups: seq<InvestmentGroup>, walletTotal: real, contribution: real,
                          ghost inputs: seq<GroupInput>, ghost lists: seq<seq<Asset>>)
      returns (s: WalletSuggestion)
      requires |inputs| == |groups| && |lists| == |groups|
      requires forall j :: 0 <= j < |groups| ==>
        && groups[j].assets == lists[j] && AllPriced(lists[j]) && inputs[j] == GroupInputOf(groups[j])
      requires forall j, i, k :: 0 <= j < |groups| && 0 <= i < k < |lists[j]| ==> lists[j][i] != lists[j][k]
      ensures fresh(s) && |s.children| == |groups|
      ensures forall j :: 0 <= j < |groups| ==>
        && s.children[j].group == groups[j] && Owns(s.children[j], lists[j])
        && s.children[j].Follows(Plan(inputs, walletTotal, contribution)[j])
    {
      var gs := BuildGroups(groups, walletTotal, contribution, inputs, lists);
      ghost var ideals := GroupIdeals(inputs, walletTotal, contribution);
      ghost var actuals := Split(ideals, contribution);
      assert Ideals(gs) == ideals;
      var total := Sum(Ideals(gs));
      FirstPass(gs, total);
      SecondPass(gs, actuals);
      ghost var plan := Plan(inputs, walletTotal, contribution);
      forall m | 0 <= m < |gs| ensures gs[m].Follows(plan[m]) {
        PlanAt(inputs, walletTotal, contribution, m);
      }
      s := new WalletSuggestion(gs);
    }

    /** The first pass: every group's actual investment, split from the
        wallet-level contribution by the groups' ideals. */
    static method FirstPass(gs: seq<GroupSuggestion>, total: real)
      requires forall m, n :: 0 <= m < n < |gs| ==> gs[m] != gs[n]
      modifies gs
      ensures forall m :: 0 <= m < |gs| ==>
        gs[m].contribution == old(gs[m].contribution) && gs[m].actual == Some(Actual(gs[m].ideal, total, gs[m].contribution))
    {
      for j := 0 to |gs|
        invariant forall m :: 0 <= m < |gs| ==> gs[m].contribution == old(gs[m].contribution)
        invariant forall m :: 0 <= m < j ==> gs[m].actual == Some(Actual(gs[m].ideal, total, gs[m].contribution))
      {
        gs[j].CalculateActual(total);
      }
    }

    /** The second pass: every group hands its actual investment to
        `update_contribution_value`, which re-splits it among its assets. */
    static method SecondPass(gs: seq<GroupSuggestion>, ghost actuals: seq<real>)
      requires Separate(gs) && |actuals| == |gs|
      requires forall m :: 0 <= m < |gs| ==> gs[m].actual == Some(actuals[m])
      modifies Nodes(gs)
      ensures forall m :: 0 <= m < |gs| ==> gs[m].actual == Some(actuals[m])
      ensures forall m :: 0 <= m < |gs| ==> gs[m].ChildrenAre(Split(gs[m].ChildIdeals(), actuals[m]), actuals[m])
    {
      for j := 0 to |gs|
        invariant forall m :: 0 <= m < |gs| ==> gs[m].actual == Some(actuals[m])
        invariant forall m :: 0 <= m < j ==> gs[m].ChildrenAre(Split(gs[m].ChildIdeals(), actuals[m]), actuals[m])
      {
        var a := gs[j].SuggestedInvestment();
        gs[j].UpdateContributionValue(a.value);
      }
    }

    /** The group suggestions of priced groups, built in group order, before
        either pass: distinct new objects, with the ideals of the plan. */
    static method BuildGroups(groups: seq<InvestmentGroup>, walletTotal: real, contribution: real,
                              ghost inputs: seq<GroupInput>, ghost lists: seq<seq<Asset>>)
      returns (gs: seq<GroupSuggestion>)
      requires |inputs| == |groups| && |lists| == |groups|
      requires forall j :: 0 <= j < |groups| ==>
        && groups[j].assets == lists[j] && AllPriced(lists[j]) && inputs[j] == GroupInputOf(groups[j])
      requires forall j, i, k :: 0 <= j < |groups| && 0 <= i < k < |lists[j]| ==> lists[j][i] != lists[j][k]
      ensures |gs| == |groups| && Separate(gs)
      ensures forall m :: 0 <= m < |gs| ==> Built(gs[m], groups[m], lists[m], inputs[m], walletTotal, contribution)
      ensures forall m :: 0 <= m < |gs| ==> fresh(gs[m]) && forall i :: 0 <= i < |gs[m].children| ==> fresh(gs[m].children[i])
    {
      gs := [];
      for j := 0 to |groups|
        invariant |gs| == j && Separate(gs)
        invariant forall m :: 0 <= m < j ==> Built(gs[m], groups[m], lists[m], inputs[m], walletTotal, contribution)
        invariant forall m :: 0 <= m < j ==> fresh(gs[m]) && forall i :: 0 <= i < |gs[m].children| ==> fresh(gs[m].children[i])
      {
        gs := AddGroup(gs, groups[j], walletTotal, contribution);
      }
    }

    /** One more group suggestion, new and separate from the others. */
    static method AddGroup(gs: seq<GroupSuggestion>, group: InvestmentGroup, walletTotal: real, contribution: real)
      returns (more: seq<GroupSuggestion>)
      requires AllPriced(group.assets) && Separate(gs)
      requires forall i, k :: 0 <= i < k < |group.assets| ==> group.assets[i] != group.assets[k]
      ensures |more| == |gs| + 1 && more[..|gs|] == gs && Separate(more)
      ensures Built(more[|gs|], group, group.assets, GroupInputOf(group), walletTotal, contribution)
      ensures fresh(more[|gs|]) && forall i :: 0 <= i < |more[|gs|].children| ==> fresh(more[|gs|].children[i])
    {
      var g := GroupSuggestion.Create(group, walletTotal, contribution);
      if g.Err? {
        assert false;
      }
      more := gs + [g.value];
    }
  }

  /** The suggestion holds one asset suggestion per asset, in order. */
  ghost predicate Owns(g: GroupSuggestion, assets: seq<Asset>) {
    && |g.children| == |assets|
    && forall i :: 0 <= i < |assets| ==> g.children[i].asset == assets[i]
  }

  /** A group suggestion as construction leaves it: for its group, with the
      ideals of the plan, one asset suggestion per asset. */
  ghost predicate Built(g: GroupSuggestion, group: InvestmentGroup, assets: seq<Asset>, input: GroupInput,
                        walletTotal: real, contribution: real)
    reads g
  {
    && g.group == group && g.contribution == contribution
    && g.ideal == Ideal(input.target, walletTotal, contribution, input.total)
    && Owns(g, assets)
    && g.ChildIdeals() == AssetIdeals(input, contribution)
  }

  /** The ideals of the group suggestions, in order. */
  function Ideals(gs: seq<GroupSuggestion>): (r: seq<real>)
    ensures |r| == |gs|
    ensures forall j :: 0 <= j < |gs| ==> r[j] == gs[j].ideal
  {
    seq(|gs|, j requires 0 <= j < |gs| => gs[j].ideal)
  }

  /** The asset suggestions of all the groups. */
  ghost function Nodes(gs: seq<GroupSuggestion>): set<AssetSuggestion> {
    set m, i | 0 <= m < |gs| && 0 <= i < |gs[m].children| :: gs[m].children[i]
  }

  /** Distinct group suggestions whose asset suggestions are all distinct. */
  ghost predicate Separate(gs: seq<GroupSuggestion>) {
    && (forall m, n :: 0 <= m < n < |gs| ==> gs[m] != gs[n])
    && (forall m :: 0 <= m < |gs| ==> gs[m].Distinct())
    && (forall m, n, i :: 0 <= m < |gs| && 0 <= n < |gs| && m != n && 0 <= i < |gs[m].children| ==>
          gs[m].children[i] !in gs[n].children)
  }

  /** The first suggestion of `g` among `xs`. */
  function FindGroup(xs: seq<GroupSuggestion>, g: InvestmentGroup): (r: Result<GroupSuggestion, Error>)
    ensures r.Ok? <==> exists j :: 0 <= j < |xs| && xs[j].group == g
    ensures r.Ok? ==> r.value in xs && r.value.group == g
    ensures r.Err? ==> r.error == KeyError
  {
    if |xs| == 0 then Err(KeyError)
    else if xs[0].group == g then Ok(xs[0])
    else
      var r := FindGroup(xs[1..], g);
      assert forall j :: 1 <= j < |xs| ==> xs[j] == xs[1..][j - 1];
      r
  }
}
