/** A wallet: the root of the portfolio, an ordered list of investment groups. */
module Wallets {
  import opened Common
  import opened Participation
  import opened Assets
  import opened InvestmentGroups

  /** The asset list of each group, in group order. */
  function AssetLists(groups: seq<InvestmentGroup>): (r: seq<seq<Asset>>)
    reads groups
    ensures |r| == |groups| && forall j :: 0 <= j < |groups| ==> r[j] == groups[j].assets
  {
    if |groups| == 0 then [] else [groups[0].assets] + AssetLists(groups[1..])
  }

  /** The lists one after the other. */
  function Flatten(lists: seq<seq<Asset>>): seq<Asset> {
    if |lists| == 0 then [] else lists[0] + Flatten(lists[1..])
  }

  lemma {:induction false} FlattenConcat(s: seq<seq<Asset>>, t: seq<seq<Asset>>)
    ensures Flatten(s + t) == Flatten(s) + Flatten(t)
    decreases |s|
  {
    if |s| == 0 {
      assert s + t == t;
    } else {
      assert (s + t)[1..] == s[1..] + t;
      FlattenConcat(s[1..], t);
    }
  }

  /** The flattened lists split around list i. */
  lemma FlattenSplit(lists: seq<seq<Asset>>, i: nat)
    requires i < |lists|
    ensures Flatten(lists[..i + 1]) == Flatten(lists[..i]) + lists[i]
    ensures Flatten(lists) == Flatten(lists[..i]) + lists[i] + Flatten(lists[i + 1..])
  {
    assert lists[..i + 1] == lists[..i] + [lists[i]];
    FlattenConcat(lists[..i], [lists[i]]);
    assert Flatten([lists[i]]) == lists[i] + Flatten([]);
    assert lists == lists[..i + 1] + lists[i + 1..];
    FlattenConcat(lists[..i + 1], lists[i + 1..]);
  }

  /** The assets of the groups, group after group, each in its group's order
      (an asset held by two groups appears twice). */
  function AllAssets(groups: seq<InvestmentGroup>): seq<Asset>
    reads groups
  {
    Flatten(AssetLists(groups))
  }

  /** The assets of the first group come first. */
  lemma AllAssetsCons(groups: seq<InvestmentGroup>)
    requires |groups| > 0
    ensures AllAssets(groups) == groups[0].assets + AllAssets(groups[1..])
  {
    assert AssetLists(groups)[1..] == AssetLists(groups[1..]);
  }

  /** Every asset object reachable from the groups. */
  function Members(groups: seq<InvestmentGroup>): set<Asset>
    reads groups
  {
    set a | a in AllAssets(groups)
  }

  /** Every member sits at some position of some group. */
  lemma {:induction false} MemberAt(groups: seq<InvestmentGroup>, a: Asset)
    requires a in Members(groups)
    ensures exists m, k :: 0 <= m < |groups| && 0 <= k < |groups[m].assets| && groups[m].assets[k] == a
    decreases |groups|
  {
    AllAssetsCons(groups);
    if a in groups[0].assets {
      var k :| 0 <= k < |groups[0].assets| && groups[0].assets[k] == a;
    } else {
      assert a in Members(groups[1..]);
      MemberAt(groups[1..], a);
      var m, k :| 0 <= m < |groups[1..]| && 0 <= k < |groups[1..][m].assets| && groups[1..][m].assets[k] == a;
      assert groups[m + 1].assets[k] == a;
    }
  }

  /** What the loop of `Wallet.from_dict` has built so far: one group per
      record, in order, each holding its record and of distinct assets, the
      groups distinct, and each group's participation-sum check. */
  ghost predicate Loaded(groups: seq<InvestmentGroup>, recs: seq<GroupRecord>, checks: seq<SumCheck>)
    reads groups, set g, k | g in groups && 0 <= k < |g.assets| :: g.assets[k]
  {
    && |groups| == |recs| && |checks| == |recs|
    && (forall m :: 0 <= m < |groups| ==>
          && groups[m].Holds(recs[m]) && groups[m].DistinctAssets()
          && checks[m] == CheckParticipationSum(SumTargets(groups[m].assets)))
    && (forall m, n :: 0 <= m < n < |groups| ==> groups[m] != groups[n])
  }

  /** A new group holding the next record extends what has been loaded. */
  lemma LoadedAppend(groups: seq<InvestmentGroup>, recs: seq<GroupRecord>, checks: seq<SumCheck>,
                     g: InvestmentGroup, rec: GroupRecord, check: SumCheck)
    requires Loaded(groups, recs, checks) && g !in groups
    requires g.Holds(rec) && g.DistinctAssets()
    requires check == CheckParticipationSum(SumTargets(g.assets))
    ensures Loaded(groups + [g], recs + [rec], checks + [check])
  {
    var gs, rs, cs := groups + [g], recs + [rec], checks + [check];
    forall m | 0 <= m < |gs|
      ensures gs[m].Holds(rs[m]) && gs[m].DistinctAssets()
      ensures cs[m] == CheckParticipationSum(SumTargets(gs[m].assets))
    {
      if m < |groups| {
        assert gs[m] == groups[m] && rs[m] == recs[m] && cs[m] == checks[m];
      }
    }
  }

  /** Sum of the groups' target participations, in list order. */
  function SumGroupTargets(groups: seq<InvestmentGroup>): real {
    if |groups| == 0 then 0.0 else groups[0].target as real + SumGroupTargets(groups[1..])
  }

  /** Where the first unpriced asset of a concatenation lies. */
  lemma {:induction false} FirstUnpricedConcat(s: seq<Asset>, t: seq<Asset>)
    ensures FirstUnpriced(s + t) ==
      if FirstUnpriced(s) < |s| then FirstUnpriced(s) else |s| + FirstUnpriced(t)
    decreases |s|
  {
    if |s| > 0 {
      assert (s + t)[0] == s[0];
      assert (s + t)[1..] == s[1..] + t;
      FirstUnpricedConcat(s[1..], t);
    } else {
      assert s + t == t;
    }
  }

  /** `sum(x.get_total_amount() for x in groups)`: the sum of the group totals;
      the first unpriced asset, in group order, is the one whose
      `AssetWithNoPrice` propagates. */
  function GroupsTotal(groups: seq<InvestmentGroup>): (r: Result<real, Error>)
    reads groups, Members(groups)
    ensures r.Ok? <==> AllPriced(AllAssets(groups))
    ensures r.Err? ==>
      var k := FirstUnpriced(AllAssets(groups));
      k < |AllAssets(groups)| && r.error == AssetWithNoPrice(AllAssets(groups)[k].code)
    ensures |groups| == 0 ==> r == Ok(0.0)
  {
    if |groups| == 0 then Ok(0.0)
    else
      AllAssetsCons(groups);
      assert Members(groups[1..]) <= Members(groups);
      FirstUnpricedConcat(groups[0].assets, AllAssets(groups[1..]));
      var first :- groups[0].TotalAmount();
      var rest :- GroupsTotal(groups[1..]);
      Ok(first + rest)
  }

  /** The wallet total is the total of all its assets taken group after
      group: the same sum when all are priced, the same error otherwise. */
  lemma {:induction false} GroupsTotalIsAssetsTotal(groups: seq<InvestmentGroup>)
    ensures GroupsTotal(groups) == AssetsTotal(AllAssets(groups))
    decreases |groups|
  {
    if |groups| > 0 && AllPriced(AllAssets(groups)) {
      AllAssetsCons(groups);
      var s, t := groups[0].assets, AllAssets(groups[1..]);
      assert forall i :: 0 <= i < |s| ==> s[i] == (s + t)[i];
      assert forall i :: 0 <= i < |t| ==> t[i] == (s + t)[|s| + i];
      GroupsTotalIsAssetsTotal(groups[1..]);
      AssetsTotalConcat(s, t);
    }
  }

  /** One more group adds its total to the wallet total. */
  lemma GroupsTotalAppend(groups: seq<InvestmentGroup>, g: InvestmentGroup)
    requires AllPriced(AllAssets(groups)) && AllPriced(g.assets)
    ensures GroupsTotal(groups + [g]).Ok?
    ensures GroupsTotal(groups + [g]).value == GroupsTotal(groups).value + g.TotalAmount().value
  {
    assert AssetLists(groups + [g]) == AssetLists(groups) + [g.assets];
    FlattenConcat(AssetLists(groups), [g.assets]);
    assert Flatten([g.assets]) == g.assets;
    GroupsTotalIsAssetsTotal(groups);
    GroupsTotalIsAssetsTotal(groups + [g]);
    AssetsTotalConcat(AllAssets(groups), g.assets);
  }

  /** Where the first pricing failure of a concatenation lies. */
  lemma {:induction false} FirstPricingFailureConcat(s: seq<Asset>, t: seq<Asset>, pricing: PricingFunction)
    ensures FirstPricingFailure(s + t, pricing) ==
      if FirstPricingFailure(s, pricing) < |s| then FirstPricingFailure(s, pricing)
      else |s| + FirstPricingFailure(t, pricing)
    decreases |s|
  {
    if |s| > 0 {
      assert (s + t)[0] == s[0];
      assert (s + t)[1..] == s[1..] + t;
      FirstPricingFailureConcat(s[1..], t, pricing);
    } else {
      assert s + t == t;
    }
  }

  /** One group of the cascade: with every asset of the groups before group
      i answered, the cascade over the groups so far goes on with group i,
      and when group i has a failure it is the first failure over all the
      groups and the cascade over all of them stops there. */
  lemma CascadeStep(lists: seq<seq<Asset>>, i: nat, done: seq<Asset>, base: map<Asset, Option<real>>,
                    answers: PricingFunction)
    requires i < |lists|
    requires done == Flatten(lists[..i])
    requires FirstPricingFailure(done, answers) == |done|
    ensures var g := lists[i];
      var k := FirstPricingFailure(g, answers);
      var all := Flatten(lists);
      && Flatten(lists[..i + 1]) == done + g
      && Cascade(done + g, base, answers) == Cascade(g, Cascade(done, base, answers), answers)
      && (k == |g| ==> FirstPricingFailure(done + g, answers) == |done + g|)
      && (k < |g| ==> FirstPricingFailure(all, answers) == |done| + k)
      && (k < |g| ==> |done| + k < |all| && all[|done| + k] == g[k])
      && (k < |g| ==> Cascade(all, base, answers) == Cascade(done + g, base, answers))
  {
    var g := lists[i];
    var rest := Flatten(lists[i + 1..]);
    FlattenSplit(lists, i);
    FirstPricingFailureConcat(done, g, answers);
    FirstPricingFailureConcat(done + g, rest, answers);
    CascadeAfterPassing(done, g, base, answers);
    if FirstPricingFailure(g, answers) < |g| {
      CascadeStopsInside(done + g, rest, base, answers);
    }
  }

  /** The elements of list i are elements of the flattened lists. */
  lemma FlattenHas(lists: seq<seq<Asset>>, i: nat)
    requires i < |lists|
    ensures forall a :: a in lists[i] ==> a in Flatten(lists)
  {
    FlattenSplit(lists, i);
  }

  /** The price of each of the assets. */
  function Prices(members: set<Asset>): map<Asset, Option<real>>
    reads members
  {
    map a | a in members :: a.price
  }

  /** The price-earnings ratio of each of the assets. */
  function PriceEarnings(members: set<Asset>): map<Asset, Option<real>>
    reads members
  {
    map a | a in members :: a.priceEarnings
  }

  /** The held quantity of each of the assets. */
  function Quantities(members: set<Asset>): map<Asset, int>
    reads members
  {
    map a | a in members :: a.quantity
  }

  /** Group records decoded in list order; the first bad one fails them all. */
  function DecodeGroups(items: seq<Value>): Result<seq<GroupRecord>, Error> {
    DecodeList(DecodeGroup, items, |items|)
  }

  /** `Wallet.from_dict`: a dict whose `investment_groups` entry is iterable
      and whose items are valid group records. */
  function DecodeWallet(v: Value): (r: Result<seq<GroupRecord>, Error>)
    ensures !v.PyDict? ==> r == Err(NotADict)
    ensures r.Ok? <==>
      && v.PyDict?
      && Iterate(v.Get("investment_groups"), "investment_groups").Ok?
      && DecodeGroups(Iterate(v.Get("investment_groups"), "investment_groups").value).Ok?
    ensures r.Ok? ==> r.value == DecodeGroups(Iterate(v.Get("investment_groups"), "investment_groups").value).value
  {
    if !v.PyDict? then Err(NotADict)
    else
      var items :- Iterate(v.Get("investment_groups"), "investment_groups");
      DecodeGroups(items)
  }

  /** A dict without an `investment_groups` key is a `TypeError`: `get`
      answers None, which cannot be iterated. */
  lemma DecodeWalletWithoutGroups(v: Value)
    requires v.PyDict?
    requires forall i :: 0 <= i < |v.entries| ==> v.entries[i].0 != "investment_groups"
    ensures DecodeWallet(v) == Err(NotIterable("investment_groups"))
  {
  }

  class Wallet {
    var groups: seq<InvestmentGroup>

    /** `Wallet()`: no groups. */
    constructor ()
      ensures groups == []
    {
      groups := [];
    }

    /** `add_investment_group`: appends at the end, earlier groups keep their order. */
    method AddInvestmentGroup(g: InvestmentGroup)
      modifies this`groups
      ensures groups == old(groups) + [g]
    {
      groups := groups + [g];
    }

    /** `Wallet.from_dict`: fails exactly as `DecodeWallet` does; otherwise a
        fresh wallet holding one fresh group per record, in order, each of
        fresh and distinct assets, together
        with the participation-sum check each group's loader made and the
        check of the groups' own participations. */
    static method FromDict(v: Value) returns (r: Result<(Wallet, seq<SumCheck>, SumCheck), Error>)
      ensures r.Err? <==> DecodeWallet(v).Err?
      ensures r.Err? ==> r.error == DecodeWallet(v).error
      ensures r.Ok? ==>
        var w := r.value.0;
        var recs := DecodeWallet(v).value;
        && fresh(w) && Loaded(w.groups, recs, r.value.1)
        && (forall i :: 0 <= i < |w.groups| ==> fresh(w.groups[i])) && fresh(Members(w.groups))
        && r.value.2 == CheckParticipationSum(SumGroupTargets(w.groups))
    {
      if !v.PyDict? {
        return Err(NotADict);
      }
      var w := new Wallet();
      var items :- Iterate(v.Get("investment_groups"), "investment_groups");
      var checks :- w.LoadGroups(items);
      return Ok((w, checks, CheckParticipationSum(SumGroupTargets(w.groups))));
    }

    /** The loop of `from_dict`: each group record is loaded and appended in
        order; the first bad record aborts. */
    method LoadGroups(items: seq<Value>) returns (r: Result<seq<SumCheck>, Error>)
      requires groups == []
      modifies this`groups
      ensures r.Err? <==> DecodeGroups(items).Err?
      ensures r.Err? ==> r.error == DecodeGroups(items).error
      ensures r.Ok? ==> Loaded(groups, DecodeGroups(items).value, r.value)
      ensures r.Ok? ==> (forall m :: 0 <= m < |groups| ==> fresh(groups[m])) && fresh(Members(groups))
    {
      var checks: seq<SumCheck> := [];
      ghost var recs: seq<GroupRecord> := [];
      for i := 0 to |items|
        invariant |recs| == i
        invariant DecodeList(DecodeGroup, items, i) == Ok(recs)
        invariant Loaded(groups, recs, checks)
        invariant forall m :: 0 <= m < |groups| ==>
          fresh(groups[m]) && forall k :: 0 <= k < |groups[m].assets| ==> fresh(groups[m].assets[k])
      {
        var check := LoadGroup(items, i, recs, checks);
        if check.Err? {
          return Err(check.error);
        }
        checks := checks + [check.value];
        recs := recs + [DecodeGroup(items[i]).value];
      }
      forall a | a in Members(groups)
        ensures fresh(a)
      {
        MemberAt(groups, a);
      }
      return Ok(checks);
    }

    /** One iteration of `from_dict`: the group record is loaded and one new
        group, of new assets, appended, extending what the earlier iterations
        built; or the wallet is left as it was and the whole list fails. */
    method LoadGroup(items: seq<Value>, i: nat, ghost recs: seq<GroupRecord>, ghost checks: seq<SumCheck>)
      returns (r: Result<SumCheck, Error>)
      requires i < |items| && DecodeList(DecodeGroup, items, i) == Ok(recs)
      requires Loaded(groups, recs, checks)
      modifies this`groups
      ensures r.Err? <==> DecodeGroup(items[i]).Err?
      ensures r.Err? ==> DecodeGroups(items) == Err(r.error) && groups == old(groups)
      ensures r.Ok? ==> DecodeList(DecodeGroup, items, i + 1) == Ok(recs + [DecodeGroup(items[i]).value])
      ensures r.Ok? ==> Loaded(groups, recs + [DecodeGroup(items[i]).value], checks + [r.value])
      ensures r.Ok? ==> |groups| == |old(groups)| + 1
      ensures r.Ok? ==> var g := groups[|old(groups)|];
        && groups == old(groups) + [g] && fresh(g)
        && (forall k :: 0 <= k < |g.assets| ==> fresh(g.assets[k]))
    {
      var loaded := InvestmentGroup.FromDict(items[i]);
      if loaded.Err? {
        DecodeListStaysFailed(DecodeGroup, items, i + 1, |items|);
        return Err(loaded.error);
      }
      var g := loaded.value.0;
      AddInvestmentGroup(g);
      LoadedAppend(old(groups), recs, checks, g, DecodeGroup(items[i]).value, loaded.value.1);
      return Ok(loaded.value.1);
    }

    /** `has_investment_group`. */
    function HasInvestmentGroup(): bool
      reads this
    {
      |groups| > 0
    }

    /** `get_total_amount`: the sum of the group totals. */
    function TotalAmount(): (r: Result<real, Error>)
      reads this, groups, Members(groups)
    {
      GroupsTotal(groups)
    }

    /** `update_asset_values`: each group in order prices its assets in
        order, and the first failure anywhere aborts the cascade. Seen as one
        list of assets, group after group, the prices are those `Cascade`
        leaves; quantities and price-earnings ratios do not change. */
    method UpdateAssetValues(pricing: PricingFunction) returns (r: Result<(), Error>)
      modifies Members(groups)
      ensures var all := old(AllAssets(groups));
        var k := FirstPricingFailure(all, pricing);
        && (r.Ok? <==> k == |all|)
        && (r.Err? ==> r.error == AssetPricingError(all[k].code, pricing(all[k].code).error))
      ensures Prices(old(Members(groups))) == Cascade(old(AllAssets(groups)), old(Prices(Members(groups))), pricing)
      ensures PriceEarnings(old(Members(groups))) == old(PriceEarnings(Members(groups))) && Quantities(old(Members(groups))) == old(Quantities(Members(groups)))
    {
      ghost var lists := AssetLists(groups);
      ghost var members := Members(groups);
      assert forall a :: a in Flatten(lists) ==> a in members;
      ghost var base := Prices(members);
      ghost var done: seq<Asset> := [];
      var i := 0;
      while i < |groups|
        invariant 0 <= i <= |groups|
        invariant done == Flatten(lists[..i])
        invariant FirstPricingFailure(done, pricing) == |done|
        invariant Prices(members) == Cascade(done, base, pricing)
        invariant PriceEarnings(members) == old(PriceEarnings(members)) && Quantities(members) == old(Quantities(members))
      {
        CascadeStep(lists, i, done, base, pricing);
        FlattenHas(lists, i);
        var outcome := PriceGroup(groups[i], pricing, members);
        if outcome.Err? {
          return Err(outcome.error);
        }
        done := done + lists[i];
        i := i + 1;
      }
      assert lists[..i] == lists;
      return Ok(());
    }

    /** `update_asset_price_earnings`: the same cascade for the price-earnings ratio. */
    method UpdateAssetPriceEarnings(earnings: PricingFunction) returns (r: Result<(), Error>)
      modifies Members(groups)
      ensures var all := old(AllAssets(groups));
        var k := FirstPricingFailure(all, earnings);
        && (r.Ok? <==> k == |all|)
        && (r.Err? ==> r.error == AssetPricingError(all[k].code, earnings(all[k].code).error))
      ensures PriceEarnings(old(Members(groups))) == Cascade(old(AllAssets(groups)), old(PriceEarnings(Members(groups))), earnings)
      ensures Prices(old(Members(groups))) == old(Prices(Members(groups))) && Quantities(old(Members(groups))) == old(Quantities(Members(groups)))
    {
      ghost var lists := AssetLists(groups);
      ghost var members := Members(groups);
      assert forall a :: a in Flatten(lists) ==> a in members;
      ghost var base := PriceEarnings(members);
      ghost var done: seq<Asset> := [];
      var i := 0;
      while i < |groups|
        invariant 0 <= i <= |groups|
        invariant done == Flatten(lists[..i])
        invariant FirstPricingFailure(done, earnings) == |done|
        invariant PriceEarnings(members) == Cascade(done, base, earnings)
        invariant Prices(members) == old(Prices(members)) && Quantities(members) == old(Quantities(members))
      {
        CascadeStep(lists, i, done, base, earnings);
        FlattenHas(lists, i);
        var outcome := PriceEarningsGroup(groups[i], earnings, members);
        if outcome.Err? {
          return Err(outcome.error);
        }
        done := done + lists[i];
        i := i + 1;
      }
      assert lists[..i] == lists;
      return Ok(());
    }
  }

  /** A group prices its assets: among the assets `members`, which include
      the group's, the prices are those the group's cascade leaves and
      nothing else changes. */
  method PriceGroup(group: InvestmentGroup, pricing: PricingFunction, ghost members: set<Asset>) returns (r: Result<(), Error>)
    requires forall a :: a in group.assets ==> a in members
    modifies group.assets
    ensures group.assets == old(group.assets)
    ensures var g := group.assets;
      var k := FirstPricingFailure(g, pricing);
      && (r.Ok? <==> k == |g|)
      && (r.Err? ==> r.error == AssetPricingError(g[k].code, pricing(g[k].code).error))
    ensures Prices(members) == Cascade(group.assets, old(Prices(members)), pricing)
    ensures PriceEarnings(members) == old(PriceEarnings(members)) && Quantities(members) == old(Quantities(members))
  {
    CascadeMeaning(group.assets, Prices(members), pricing);
    r := group.UpdateAssetValues(pricing);
  }

  /** A group updates its price-earnings ratios, in the same way. */
  method PriceEarningsGroup(group: InvestmentGroup, earnings: PricingFunction, ghost members: set<Asset>) returns (r: Result<(), Error>)
    requires forall a :: a in group.assets ==> a in members
    modifies group.assets
    ensures group.assets == old(group.assets)
    ensures var g := group.assets;
      var k := FirstPricingFailure(g, earnings);
      && (r.Ok? <==> k == |g|)
      && (r.Err? ==> r.error == AssetPricingError(g[k].code, earnings(g[k].code).error))
    ensures PriceEarnings(members) == Cascade(group.assets, old(PriceEarnings(members)), earnings)
    ensures Prices(members) == old(Prices(members)) && Quantities(members) == old(Quantities(members))
  {
    CascadeMeaning(group.assets, PriceEarnings(members), earnings);
    r := group.UpdateAssetPriceEarnings(earnings);
  }
}
