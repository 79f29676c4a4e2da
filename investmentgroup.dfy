/** An investment group: a named, ordered list of assets with its own target
    participation, plus the participation-sum check its loader performs. */
module InvestmentGroups {
  import opened Common
  import opened Participation
  import opened Assets

  /** The outcome of the participation-sum check that groups and wallets run
      on their children after loading: a sum strictly above or strictly below
      100 is warned about (with no tolerance band), exactly 100 is not. */
  datatype SumCheck = Greater(total: real) | Lower(total: real) | Exact

  function CheckParticipationSum(total: real): (r: SumCheck)
    ensures r.Greater? <==> total > 100.0
    ensures r.Lower? <==> total < 100.0
    ensures r.Exact? <==> total == 100.0
    ensures !r.Exact? ==> r.total == total
  {
    if total > 100.0 then Greater(total)
    else if total < 100.0 then Lower(total)
    else Exact
  }

  /** Sum of the assets' target participations, in list order. */
  function SumTargets(assets: seq<Asset>): real {
    if |assets| == 0 then 0.0 else assets[0].target as real + SumTargets(assets[1..])
  }

  /** Each asset is valid and holds the record at its position. */
  ghost predicate AssetsHold(assets: seq<Asset>, recs: seq<AssetRecord>)
    reads assets
  {
    && |assets| == |recs|
    && forall i :: 0 <= i < |assets| ==> assets[i].Valid() && assets[i].Holds(recs[i])
  }

  /** An asset holding the next record extends the list. */
  lemma AssetsHoldAppend(assets: seq<Asset>, recs: seq<AssetRecord>, a: Asset, rec: AssetRecord)
    requires AssetsHold(assets, recs) && a.Valid() && a.Holds(rec)
    ensures AssetsHold(assets + [a], recs + [rec])
  {
    forall i | 0 <= i < |assets| + 1
      ensures (assets + [a])[i].Valid() && (assets + [a])[i].Holds((recs + [rec])[i])
    {
      if i < |assets| {
        assert (assets + [a])[i] == assets[i] && (recs + [rec])[i] == recs[i];
      }
    }
  }

  /** All assets have been priced. */
  ghost predicate AllPriced(assets: seq<Asset>)
    reads assets
  {
    forall i :: 0 <= i < |assets| ==> assets[i].price.Some?
  }

  /** Index of the first asset without a price, |assets| when every asset has one. */
  function FirstUnpriced(assets: seq<Asset>): (k: nat)
    reads assets
    ensures k <= |assets|
    ensures forall i :: 0 <= i < k ==> assets[i].price.Some?
    ensures k < |assets| ==> assets[k].price.None?
  {
    if |assets| == 0 then 0
    else if assets[0].price.None? then 0
    else 1 + FirstUnpriced(assets[1..])
  }

  /** `sum(x.get_total_amount() for x in assets)`: the generator stops at the
      first asset without a price, whose `AssetWithNoPrice` propagates. */
  function AssetsTotal(assets: seq<Asset>): (r: Result<real, Error>)
    reads assets
    ensures r.Ok? <==> AllPriced(assets)
    ensures r.Err? ==>
      FirstUnpriced(assets) < |assets| && r.error == AssetWithNoPrice(assets[FirstUnpriced(assets)].code)
    ensures |assets| == 0 ==> r == Ok(0.0)
  {
    if |assets| == 0 then Ok(0.0)
    else
      var first :- assets[0].TotalAmount();
      var rest :- AssetsTotal(assets[1..]);
      assert forall i :: 1 <= i < |assets| ==> assets[i] == assets[1..][i - 1];
      Ok(first + rest)
  }

  /** Appending an asset adds its total to the group's total. */
  lemma {:induction false} AssetsTotalAppend(assets: seq<Asset>, a: Asset)
    requires AllPriced(assets) && a.price.Some?
    ensures AssetsTotal(assets + [a]).Ok?
    ensures AssetsTotal(assets + [a]).value == AssetsTotal(assets).value + a.TotalAmount().value
    decreases |assets|
  {
    if |assets| == 0 {
      assert assets + [a] == [a];
      assert [a][1..] == [];
    } else {
      assert (assets + [a])[1..] == assets[1..] + [a];
      AssetsTotalAppend(assets[1..], a);
    }
  }

  /** The total of two lists one after the other is the sum of their totals. */
  lemma {:induction false} AssetsTotalConcat(s: seq<Asset>, t: seq<Asset>)
    requires AllPriced(s) && AllPriced(t)
    ensures AssetsTotal(s + t).Ok?
    ensures AssetsTotal(s + t).value == AssetsTotal(s).value + AssetsTotal(t).value
    decreases |s|
  {
    if |s| == 0 {
      assert s + t == t;
    } else {
      assert (s + t)[1..] == s[1..] + t;
      AssetsTotalConcat(s[1..], t);
    }
  }

  /** A group whose assets are all priced but none held has total 0. */
  lemma {:induction false} AssetsTotalOfNothingHeld(assets: seq<Asset>)
    requires AllPriced(assets)
    requires forall i :: 0 <= i < |assets| ==> assets[i].quantity == 0
    ensures AssetsTotal(assets) == Ok(0.0)
    decreases |assets|
  {
    if |assets| > 0 {
      AssetsTotalOfNothingHeld(assets[1..]);
    }
  }

  /** Index of the first asset for which the pricing function fails, |assets|
      when it answers for every code. Codes are constants, so this reads nothing. */
  function FirstPricingFailure(assets: seq<Asset>, pricing: PricingFunction): (k: nat)
    ensures k <= |assets|
    ensures k < |assets| ==> pricing(assets[k].code).Err?
  {
    if |assets| == 0 then 0
    else if pricing(assets[0].code).Err? then 0
    else 1 + FirstPricingFailure(assets[1..], pricing)
  }

  /** The first failure is the failing index every earlier index passes. */
  lemma {:induction false} FirstPricingFailureAt(assets: seq<Asset>, pricing: PricingFunction, k: nat)
    requires k <= |assets|
    requires forall i :: 0 <= i < k ==> pricing(assets[i].code).Ok?
    requires k < |assets| ==> pricing(assets[k].code).Err?
    ensures FirstPricingFailure(assets, pricing) == k
    decreases k
  {
    if k > 0 {
      assert pricing(assets[0].code).Ok?;
      FirstPricingFailureAt(assets[1..], pricing, k - 1);
    }
  }

  /** The cascade of `update_asset_values` on values: the assets in list
      order store their answer in `m`, and the first failure stops it. */
  function Cascade(assets: seq<Asset>, m: map<Asset, Option<real>>, answers: PricingFunction): map<Asset, Option<real>> {
    if |assets| == 0 || answers(assets[0].code).Err? then m
    else Cascade(assets[1..], m[assets[0] := answers(assets[0].code).value], answers)
  }

  /** What the cascade leaves: the assets before the first failure hold
      their answer, every other key keeps its value, no key is added. */
  lemma {:induction false} CascadeMeaning(assets: seq<Asset>, m: map<Asset, Option<real>>, answers: PricingFunction)
    requires forall a :: a in assets ==> a in m
    ensures Cascade(assets, m, answers).Keys == m.Keys
    ensures forall a :: a in m ==>
      Cascade(assets, m, answers)[a] ==
        if a in assets[..FirstPricingFailure(assets, answers)] then PriceAfter(m[a], answers(a.code)) else m[a]
    decreases |assets|
  {
    if |assets| > 0 && answers(assets[0].code).Ok? {
      var x := assets[0];
      var m' := m[x := answers(x.code).value];
      CascadeMeaning(assets[1..], m', answers);
      var k := FirstPricingFailure(assets, answers);
      assert assets[..k] == [x] + assets[1..][..k - 1];
    }
  }

  /** A cascade that passes the whole of `s` goes on with `t` from where it got. */
  lemma {:induction false} CascadeAfterPassing(s: seq<Asset>, t: seq<Asset>, m: map<Asset, Option<real>>, answers: PricingFunction)
    requires FirstPricingFailure(s, answers) == |s|
    ensures Cascade(s + t, m, answers) == Cascade(t, Cascade(s, m, answers), answers)
    decreases |s|
  {
    if |s| == 0 {
      assert s + t == t;
    } else {
      assert (s + t)[0] == s[0];
      assert (s + t)[1..] == s[1..] + t;
      CascadeAfterPassing(s[1..], t, m[s[0] := answers(s[0].code).value], answers);
    }
  }

  /** A cascade that fails inside `s` never reaches `t`. */
  lemma {:induction false} CascadeStopsInside(s: seq<Asset>, t: seq<Asset>, m: map<Asset, Option<real>>, answers: PricingFunction)
    requires FirstPricingFailure(s, answers) < |s|
    ensures Cascade(s + t, m, answers) == Cascade(s, m, answers)
    decreases |s|
  {
    assert (s + t)[0] == s[0];
    if answers(s[0].code).Ok? {
      assert (s + t)[1..] == s[1..] + t;
      CascadeStopsInside(s[1..], t, m[s[0] := answers(s[0].code).value], answers);
    }
  }

  /** The validated fields of a group record. */
  datatype GroupRecord = GroupRecord(name: string, target: Percent, assets: seq<AssetRecord>)

  /** The name check: a name must be a non-empty string. */
  function NameFromValue(v: Value): (r: Result<string, Error>)
    ensures r.Ok? <==> v.PyStr? && |v.s| > 0
    ensures r.Ok? ==> r.value == v.s
    ensures !v.PyStr? ==> r == Err(WrongType("name"))
    ensures v.PyStr? && |v.s| == 0 ==> r == Err(EmptyName)
  {
    if !v.PyStr? then Err(WrongType("name"))
    else if |v.s| == 0 then Err(EmptyName)
    else Ok(v.s)
  }

  /** Asset records decoded in list order; the first bad one fails them all. */
  function DecodeAssets(items: seq<Value>): Result<seq<AssetRecord>, Error> {
    DecodeList(DecodeAsset, items, |items|)
  }

  /** `InvestmentGroup.from_dict`: a dict, a valid name, a valid participation
      and an iterable `assets` entry whose items are valid asset records. */
  function DecodeGroup(v: Value): (r: Result<GroupRecord, Error>)
    ensures !v.PyDict? ==> r == Err(NotADict)
    ensures r.Ok? <==>
      && v.PyDict?
      && NameFromValue(v.Get("name")).Ok?
      && ParticipationFromValue(v.Get("target_participation"), "target_participation").Ok?
      && Iterate(v.Get("assets"), "assets").Ok?
      && DecodeAssets(Iterate(v.Get("assets"), "assets").value).Ok?
    ensures r.Ok? ==>
      && r.value.name == v.Get("name").s
      && r.value.target == v.Get("target_participation").f
      && r.value.assets == DecodeAssets(Iterate(v.Get("assets"), "assets").value).value
  {
    if !v.PyDict? then Err(NotADict)
    else
      var name :- NameFromValue(v.Get("name"));
      var target :- ParticipationFromValue(v.Get("target_participation"), "target_participation");
      var items :- Iterate(v.Get("assets"), "assets");
      var assets :- DecodeAssets(items);
      Ok(GroupRecord(name, target, assets))
  }

  /** A dict with a valid name and participation but no `assets` key is a
      `TypeError`: `get` answers None, which cannot be iterated. */
  lemma DecodeGroupWithoutAssets(v: Value)
    requires v.PyDict?
    requires NameFromValue(v.Get("name")).Ok?
    requires ParticipationFromValue(v.Get("target_participation"), "target_participation").Ok?
    requires forall i :: 0 <= i < |v.entries| ==> v.entries[i].0 != "assets"
    ensures DecodeGroup(v).Err? && DecodeGroup(v).error.IsTypeError()
  {
  }

  class InvestmentGroup {
    const name: string
    const target: Percent
    var assets: seq<Asset>

    /** A group that already passed the name and participation checks; the
        checked entry points are `Create` and `FromDict`. */
    constructor (name: string, target: Percent)
      requires |name| > 0
      ensures this.name == name && this.target == target && assets == []
    {
      this.name := name;
      this.target := target;
      assets := [];
    }

    /** `InvestmentGroup(name, target_participation)`: an empty name, then an
        invalid participation, is refused; otherwise the group has no assets. */
    static method Create(name: string, target: real) returns (r: Result<InvestmentGroup, Error>)
      ensures r.Err? <==> |name| == 0 || NewParticipation(target).Err?
      ensures |name| == 0 ==> r == Err(EmptyName)
      ensures |name| > 0 && r.Err? ==> r.error == NewParticipation(target).error
      ensures r.Ok? ==>
        fresh(r.value) && r.value.name == name && r.value.target == target && r.value.assets == []
    {
      if |name| == 0 {
        return Err(EmptyName);
      }
      var t :- NewParticipation(target);
      var g := new InvestmentGroup(name, t);
      return Ok(g);
    }

    /** `add_asset`: appends at the end, earlier assets keep their order. */
    method AddAsset(a: Asset)
      modifies this`assets
      ensures assets == old(assets) + [a]
    {
      assets := assets + [a];
    }

    /** `has_asset`. */
    function HasAsset(): bool
      reads this
    {
      |assets| > 0
    }

    /** `get_total_amount`: the sum of the assets' totals. */
    function TotalAmount(): (r: Result<real, Error>)
      reads this, assets
    {
      AssetsTotal(assets)
    }

    /** `update_asset_values`: prices the assets in list order; the first
        failure aborts, so the assets before it carry their new price and the
        failing one and those after it keep the price they had. */
    method UpdateAssetValues(pricing: PricingFunction) returns (r: Result<(), Error>)
      modifies assets
      ensures assets == old(assets)
      ensures var k := FirstPricingFailure(assets, pricing);
        && (r.Ok? <==> k == |assets|)
        && (r.Err? ==> r.error == AssetPricingError(assets[k].code, pricing(assets[k].code).error))
        && forall a :: a in assets ==>
             a.price == if a in assets[..k] then PriceAfter(old(a.price), pricing(a.code)) else old(a.price)
      ensures forall a :: a in assets ==>
        a.quantity == old(a.quantity) && a.priceEarnings == old(a.priceEarnings)
    {
      var i := 0;
      while i < |assets|
        invariant 0 <= i <= |assets|
        invariant forall m :: 0 <= m < i ==> pricing(assets[m].code).Ok?
        invariant forall a :: a in assets ==>
          a.price == if a in assets[..i] then PriceAfter(old(a.price), pricing(a.code)) else old(a.price)
        invariant forall a :: a in assets ==>
          a.quantity == old(a.quantity) && a.priceEarnings == old(a.priceEarnings)
      {
        assert assets[..i + 1] == assets[..i] + [assets[i]];
        var answer := assets[i].UpdatePrice(pricing);
        if answer.Err? {
          FirstPricingFailureAt(assets, pricing, i);
          return Err(answer.error);
        }
        i := i + 1;
      }
      assert assets[..i] == assets;
      FirstPricingFailureAt(assets, pricing, i);
      return Ok(());
    }

    /** `update_asset_price_earnings`: the same cascade for the price-earnings ratio. */
    method UpdateAssetPriceEarnings(earnings: PricingFunction) returns (r: Result<(), Error>)
      modifies assets
      ensures assets == old(assets)
      ensures var k := FirstPricingFailure(assets, earnings);
        && (r.Ok? <==> k == |assets|)
        && (r.Err? ==> r.error == AssetPricingError(assets[k].code, earnings(assets[k].code).error))
        && forall a :: a in assets ==>
             a.priceEarnings == if a in assets[..k] then PriceAfter(old(a.priceEarnings), earnings(a.code)) else old(a.priceEarnings)
      ensures forall a :: a in assets ==> a.quantity == old(a.quantity) && a.price == old(a.price)
    {
      var i := 0;
      while i < |assets|
        invariant 0 <= i <= |assets|
        invariant forall m :: 0 <= m < i ==> earnings(assets[m].code).Ok?
        invariant forall a :: a in assets ==>
          a.priceEarnings == if a in assets[..i] then PriceAfter(old(a.priceEarnings), earnings(a.code)) else old(a.priceEarnings)
        invariant forall a :: a in assets ==> a.quantity == old(a.quantity) && a.price == old(a.price)
      {
        assert assets[..i + 1] == assets[..i] + [assets[i]];
        var answer := assets[i].UpdatePriceEarnings(earnings);
        if answer.Err? {
          FirstPricingFailureAt(assets, earnings, i);
          return Err(answer.error);
        }
        i := i + 1;
      }
      assert assets[..i] == assets;
      FirstPricingFailureAt(assets, earnings, i);
      return Ok(());
    }

    /** No asset object appears twice in the group. */
    ghost predicate DistinctAssets()
      reads this
    {
      forall i, j :: 0 <= i < j < |assets| ==> assets[i] != assets[j]
    }

    /** The group holds exactly the record's name, participation and assets. */
    ghost predicate Holds(rec: GroupRecord)
      reads this, assets
    {
      && name == rec.name && target == rec.target
      && AssetsHold(assets, rec.assets)
    }

    /** The loop of `from_dict`: one fresh asset is appended per item, in
        order; the first bad item aborts. */
    method LoadAssets(items: seq<Value>) returns (r: Result<(), Error>)
      requires assets == []
      modifies this`assets
      ensures r.Err? <==> DecodeAssets(items).Err?
      ensures r.Err? ==> r.error == DecodeAssets(items).error
      ensures r.Ok? ==>
        && AssetsHold(assets, DecodeAssets(items).value) && DistinctAssets()
        && (forall i :: 0 <= i < |assets| ==> fresh(assets[i]))
    {
      ghost var recs: seq<AssetRecord> := [];
      for i := 0 to |items|
        invariant |assets| == i && |recs| == i
        invariant DecodeList(DecodeAsset, items, i) == Ok(recs)
        invariant AssetsHold(assets, recs) && DistinctAssets()
        invariant forall m :: 0 <= m < i ==> fresh(assets[m])
      {
        var step := LoadAsset(items, i, recs);
        if step.Err? {
          return step;
        }
        recs := recs + [DecodeAsset(items[i]).value];
      }
      return Ok(());
    }

    /** One round of that loop: decode item `i` into a fresh asset and
        append it; on failure the whole decoding fails with the same error. */
    method LoadAsset(items: seq<Value>, i: nat, ghost recs: seq<AssetRecord>) returns (r: Result<(), Error>)
      requires i < |items| && DecodeList(DecodeAsset, items, i) == Ok(recs)
      requires AssetsHold(assets, recs) && DistinctAssets()
      modifies this`assets
      ensures r.Err? <==> DecodeAsset(items[i]).Err?
      ensures r.Err? ==> DecodeAssets(items) == Err(r.error) && assets == old(assets)
      ensures r.Ok? ==> DecodeList(DecodeAsset, items, i + 1) == Ok(recs + [DecodeAsset(items[i]).value])
      ensures r.Ok? ==> AssetsHold(assets, recs + [DecodeAsset(items[i]).value]) && DistinctAssets()
      ensures r.Ok? ==> |assets| == |old(assets)| + 1
      ensures r.Ok? ==> var a := assets[|old(assets)|]; assets == old(assets) + [a] && fresh(a)
    {
      var a := Asset.FromDict(items[i]);
      if a.Err? {
        DecodeListStaysFailed(DecodeAsset, items, i + 1, |items|);
        return Err(a.error);
      }
      AssetsHoldAppend(assets, recs, a.value, DecodeAsset(items[i]).value);
      AddAsset(a.value);
      return Ok(());
    }

    /** `InvestmentGroup.from_dict`: fails exactly as `DecodeGroup` does;
        otherwise a fresh group holding the record, built by appending one
        fresh asset per item, and the participation-sum check of its assets. */
    static method FromDict(v: Value) returns (r: Result<(InvestmentGroup, SumCheck), Error>)
      ensures r.Err? <==> DecodeGroup(v).Err?
      ensures r.Err? ==> r.error == DecodeGroup(v).error
      ensures r.Ok? ==> var g := r.value.0;
        && fresh(g) && g.Holds(DecodeGroup(v).value) && g.DistinctAssets()
        && (forall i :: 0 <= i < |g.assets| ==> fresh(g.assets[i]))
        && r.value.1 == CheckParticipationSum(SumTargets(g.assets))
    {
      if !v.PyDict? {
        return Err(NotADict);
      }
      var name :- NameFromValue(v.Get("name"));
      var target :- ParticipationFromValue(v.Get("target_participation"), "target_participation");
      var g := new InvestmentGroup(name, target);
      var items :- Iterate(v.Get("assets"), "assets");
      var loaded := g.LoadAssets(items);
      if loaded.Err? {
        return Err(loaded.error);
      }
      assert DecodeGroup(v) == Ok(GroupRecord(name, target, DecodeAssets(items).value));
      return Ok((g, CheckParticipationSum(SumTargets(g.assets))));
    }
  }
}
