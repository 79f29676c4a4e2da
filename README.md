# PrismFolio in Dafny

PrismFolio keeps an investment portfolio as a tree. A wallet holds investment
groups, and each group holds assets. Every group and every asset has a target
participation: a percentage of its parent. Given a new contribution of money,
the engine suggests how much to put into each group and each asset, and how
many shares of each asset that buys.

This project models that core and proves properties of it:

- `common.dfy` (module `Common`): the shared types.
  - `Option`, plus a failure-compatible `Result`.
  - The library's exceptions, as one `Error` datatype.
  - A small `Value` datatype standing for the Python values that `from_dict` receives. A dict is kept as an ordered list of entries.
  - The generic decoder of a list of records.
- `targetparticipation.dfy` (module `Participation`): `TargetParticipation` as the subset type `Percent` (0 < p <= 100), with its validating constructor.
- `asset.dfy` (module `Assets`): the `Asset` class. Its quantity and price are fields updated in place.
  - Construction and `from_dict` validate their arguments.
  - `buy`, `update_price` and `update_price_earnings` change the fields.
  - `get_price` and `get_total_amount` fail on an asset that has not been priced.
- `investmentgroup.dfy` (module `InvestmentGroups`): the `InvestmentGroup` class.
  - Its assets are an ordered list that the class appends to.
  - Its total and its cascading price updates stop at the first failure.
  - `from_dict` builds a group and reports how the asset targets sum against 100%.
- `wallet.dfy` (module `Wallets`): the `Wallet` class, an ordered list of groups, with the same operations one level up.
- `allocation.dfy` (module `Allocation`): the engine's arithmetic, on values.
  - The ideal investment is `max(0, 0.01 * target * (parentTotal + contribution) - ownTotal)`.
  - The actual investment is `ideal / sum of sibling ideals * contribution`, or 0 when that sum is 0.
  - Shares are the floor of actual over price.
  - `Plan` is the whole two-pass plan of a wallet: a specification function over plain values.
- `investmentsuggestion.dfy` (module `Suggestions`): the suggestion objects as classes.
  - The actual investment of a suggestion starts unset.
  - The two passes of `WalletInvestmentSuggestion` set it in place: first across the groups, then within each group.
  - An asset's ideal is frozen in the first pass, computed from the group's total and the wallet-level contribution. The second pass only replaces the contribution and rescales.
  - The constructor's `ensures` ties every node of the resulting suggestion tree to `Plan`.
- `scenarios.dfy` (module `Scenarios`): the wallets of the project's suggestion tests, as lemmas about `Plan`, `Shares` and `Remainder`.

A pricing function is a Dafny function from an asset code to
`Result<Option<real>, string>`. The error case stands for the exception the
Python callable raises. `None` stands for a Python `None` answer, which the
source stores like any other answer. Warnings that the source logs are returned instead, as
`SumCheck` values (`Greater`, `Lower` or `Exact`).

## Model

| member | source | states |
|---|---|---|
| Participation.NewParticipation | prismfolio/targetparticipation.py:7-17 | success iff 0 < value <= 100, keeping the value unchanged; a negative value, exactly 0 and a value above 100 each give their own value error |
| Participation.ParticipationFromValue | prismfolio/targetparticipation.py:2-17 | a value passes iff it is a float in (0, 100], and then it is kept unchanged; a non-float is a type error naming the field; a negative float, 0 and a float above 100 each give their own value error |
| Assets.CheckCode | prismfolio/asset.py:79-84 | a code passes iff it is non-empty; an empty code is a value error |
| Assets.CheckQuantity | prismfolio/asset.py:86-91 | a quantity passes iff it is >= 0; a negative one is a value error that carries it |
| Assets.CheckAsset | prismfolio/asset.py:15-18 | construction succeeds iff the code is non-empty, the quantity >= 0 and the target in (0, 100]; the checks run in source order, code first, and every failure is a value error |
| Assets.PricingOutcome | prismfolio/asset.py:49-63 | succeeds iff the pricing function does, and returns its answer exactly, 0 and `None` included; a failing pricing function becomes AssetPricingError naming the code and the cause |
| Assets.CodeFromValue | prismfolio/asset.py:79-84 | a code passes iff it is a non-empty string, and then it is kept unchanged; a non-string is a type error, an empty string the EmptyCode value error |
| Assets.QuantityFromValue | prismfolio/asset.py:86-91 | a quantity passes iff it is an int >= 0, bool excluded, and then it is kept unchanged; a non-int is a type error, a negative int a value error that carries it |
| Assets.DecodeAsset | prismfolio/asset.py:72-77 | a non-dict is NotADict; a record decodes iff code, quantity and target have the right types and pass CheckAsset, and it holds exactly those values |
| Assets.Asset.constructor | prismfolio/asset.py:15-23 | the new asset holds the arguments, no price and a price-earnings ratio of 0 |
| Assets.Asset.Create | prismfolio/asset.py:15-23 | fails exactly when CheckAsset fails, with the same error; otherwise a fresh valid asset holding the arguments, unpriced |
| Assets.Asset.FromDict | prismfolio/asset.py:72-77 | fails exactly when DecodeAsset fails, with its error; otherwise a fresh valid unpriced asset holding the decoded record |
| Assets.Asset.GetPrice | prismfolio/asset.py:26-34 | succeeds iff the asset has a current price and returns it; otherwise AssetWithNoPrice for its code |
| Assets.Asset.TotalAmount | prismfolio/asset.py:65-66 | once priced, price times quantity; before, AssetWithNoPrice |
| Assets.Asset.Buy | prismfolio/asset.py:45-47 | n >= 0 adds exactly n to the quantity; a negative n fails and leaves the quantity unchanged; the quantity stays >= 0 |
| Assets.Asset.UpdatePrice | prismfolio/asset.py:49-55 | the price becomes the pricing function's answer when it succeeds, so a `None` answer leaves the asset unpriced; a failure keeps the old price; the result is PricingOutcome of that answer |
| Assets.Asset.UpdatePriceEarnings | prismfolio/asset.py:57-63 | the same for the price-earnings ratio, `None` answers included |
| InvestmentGroups.CheckParticipationSum | prismfolio/investmentgroup.py:53-65 | Greater iff the sum is above 100, Lower iff below, Exact iff equal; the warnings carry the sum |
| InvestmentGroups.FirstUnpriced | prismfolio/investmentgroup.py:25-26 | the index of the first asset without a price: every earlier one is priced |
| InvestmentGroups.AssetsTotal | prismfolio/investmentgroup.py:25-26 | succeeds iff every asset is priced; otherwise AssetWithNoPrice of the first unpriced asset; 0 for no assets |
| InvestmentGroups.AssetsTotalAppend | prismfolio/investmentgroup.py:25-26 | appending a priced asset adds its total to the group's total |
| InvestmentGroups.AssetsTotalConcat | prismfolio/investmentgroup.py:25-26 | the total of two priced lists one after the other is the sum of their totals |
| InvestmentGroups.AssetsTotalOfNothingHeld | prismfolio/investmentgroup.py:25-26 | priced assets with quantity 0 total exactly 0 |
| InvestmentGroups.FirstPricingFailure | prismfolio/investmentgroup.py:28-30 | the index at which the pricing function first fails, or the length when it never does |
| InvestmentGroups.FirstPricingFailureAt | prismfolio/investmentgroup.py:28-30 | an index that every earlier asset passes and that itself fails is the first failure |
| InvestmentGroups.CascadeMeaning | prismfolio/investmentgroup.py:28-34 | the cascade gives the assets before the first failure their new value and leaves the failing asset and those after it as they were |
| InvestmentGroups.CascadeAfterPassing | prismfolio/investmentgroup.py:28-30 | a cascade that passes all of one list goes on through the next list from where it got |
| InvestmentGroups.CascadeStopsInside | prismfolio/investmentgroup.py:28-30 | a cascade that fails inside one list never reaches the next |
| InvestmentGroups.NameFromValue | prismfolio/investmentgroup.py:68-73 | a name passes iff it is a non-empty string; a non-string is a type error, an empty string a value error |
| InvestmentGroups.DecodeGroup | prismfolio/investmentgroup.py:43-65 | a non-dict is NotADict; a record decodes iff its name and participation are valid, `assets` is iterable and each asset decodes; the result holds the name, the target and the assets in order |
| InvestmentGroups.DecodeGroupWithoutAssets | prismfolio/investmentgroup.py:43-51 | a dict with valid name and target but no `assets` key fails with a type error |
| InvestmentGroups.InvestmentGroup.constructor | prismfolio/investmentgroup.py:9-13 | the new group holds the name and target and no assets |
| InvestmentGroups.InvestmentGroup.Create | prismfolio/investmentgroup.py:9-13 | an empty name fails first; then an invalid participation fails with its error; otherwise a fresh empty group |
| InvestmentGroups.InvestmentGroup.AddAsset | prismfolio/investmentgroup.py:19-20 | the asset is appended at the end; earlier assets keep their order |
| InvestmentGroups.InvestmentGroup.UpdateAssetValues | prismfolio/investmentgroup.py:28-30 | prices the assets in list order; succeeds iff no asset fails; the first failure is returned, the assets before it carry their new price, the rest keep their old one; quantities and price-earnings ratios are untouched |
| InvestmentGroups.InvestmentGroup.UpdateAssetPriceEarnings | prismfolio/investmentgroup.py:32-34 | the same cascade for the price-earnings ratio; prices and quantities are untouched |
| InvestmentGroups.InvestmentGroup.LoadAssets | prismfolio/investmentgroup.py:50-51 | the asset loop fails exactly when the asset list does not decode, with its first error; otherwise the group holds one fresh, valid asset per record, in order, each holding its record, and no asset twice |
| InvestmentGroups.InvestmentGroup.LoadAsset | prismfolio/investmentgroup.py:50-51 | one iteration: a failing record makes the whole list fail with its error and leaves the assets unchanged; otherwise one fresh asset holding the record is appended, and the record list decoded so far grows by that record |
| InvestmentGroups.AssetsHoldAppend | prismfolio/investmentgroup.py:50-51 | appending a valid asset that holds the next record extends a list of assets holding their records |
| InvestmentGroups.InvestmentGroup.FromDict | prismfolio/investmentgroup.py:43-65 | fails exactly when DecodeGroup fails, with its error; otherwise a fresh group holding the decoded record, whose assets are fresh, distinct and each hold their record, and the participation-sum check of their targets |
| Wallets.AssetLists | prismfolio/wallet.py:21-30 | the asset list of each group, in group order |
| Wallets.FlattenConcat | prismfolio/wallet.py:24-30 | flattening distributes over concatenation |
| Wallets.FlattenSplit | prismfolio/wallet.py:24-30 | the flattened lists split around any one list |
| Wallets.AllAssetsCons | prismfolio/wallet.py:21-22 | the assets of the first group come first |
| Wallets.MemberAt | prismfolio/wallet.py:24-30 | every asset reachable from the wallet sits at some position of some group |
| Wallets.FirstUnpricedConcat | prismfolio/wallet.py:21-22 | the first unpriced asset of a concatenation lies in the first part if it has one, else in the second |
| Wallets.GroupsTotal | prismfolio/wallet.py:21-22 | succeeds iff every asset of every group is priced; otherwise AssetWithNoPrice of the first unpriced asset in group order; 0 for an empty wallet; its value is given by GroupsTotalIsAssetsTotal and GroupsTotalAppend |
| Wallets.GroupsTotalIsAssetsTotal | prismfolio/wallet.py:21-22 | the wallet total is the total of all the wallet's assets in group order: the same value, or the same error |
| Wallets.GroupsTotalAppend | prismfolio/wallet.py:21-22 | on priced groups, one more priced group adds its own total to the wallet total |
| Wallets.FirstPricingFailureConcat | prismfolio/wallet.py:24-26 | the first pricing failure of a concatenation lies in the first part if it has one, else in the second |
| Wallets.CascadeStep | prismfolio/wallet.py:24-30 | one group's step of the wallet cascade, once every earlier group has passed |
| Wallets.FlattenHas | prismfolio/wallet.py:24-30 | every asset of a group is among the wallet's assets |
| Wallets.DecodeWallet | prismfolio/wallet.py:36-56 | a non-dict is NotADict; a record decodes iff `investment_groups` is iterable and each group decodes; the result is the groups in order |
| Wallets.DecodeWalletWithoutGroups | prismfolio/wallet.py:36-44 | a dict without `investment_groups` fails with a type error |
| Wallets.Wallet.constructor | prismfolio/wallet.py:8-9 | a new wallet has no groups |
| Wallets.Wallet.AddInvestmentGroup | prismfolio/wallet.py:15-16 | the group is appended at the end; earlier groups keep their order |
| Wallets.Wallet.LoadGroups | prismfolio/wallet.py:43-44 | the group loop fails exactly when the group list does not decode, with its first error; otherwise one fresh, distinct group per record, in order, each holding its record with fresh, distinct assets, and each group's participation-sum check |
| Wallets.Wallet.LoadGroup | prismfolio/wallet.py:43-44 | one iteration: a failing record makes the whole list fail with its error and leaves the groups unchanged; otherwise one fresh group holding the record, with fresh assets, is appended, and everything loaded so far still holds |
| Wallets.LoadedAppend | prismfolio/wallet.py:43-44 | a new group that holds the next record, with distinct assets and its check, extends what has been loaded |
| Wallets.Wallet.FromDict | prismfolio/wallet.py:36-56 | fails exactly when DecodeWallet fails, with its error; otherwise a fresh wallet of fresh distinct groups holding the records, every asset fresh and distinct within its group, every group's check, and the check of the groups' targets |
| Wallets.Wallet.UpdateAssetValues | prismfolio/wallet.py:24-26 | all assets, group after group, are priced as one cascade; succeeds iff no asset fails, the first failure is returned, and the cascade fixes every price; quantities and price-earnings ratios are untouched |
| Wallets.Wallet.UpdateAssetPriceEarnings | prismfolio/wallet.py:28-30 | the same cascade for the price-earnings ratio; prices and quantities are untouched |
| Wallets.PriceGroup | prismfolio/wallet.py:24-26 | one group's part of the wallet cascade, stated over all the wallet's assets |
| Wallets.PriceEarningsGroup | prismfolio/wallet.py:28-30 | the same for the price-earnings ratio |
| Common.Iterate | prismfolio/investmentgroup.py:50 | what a `for` loop visits: a list's items, a dict's keys or a string's characters; anything else is not iterable |
| Common.DecodeListMeaning | prismfolio/investmentgroup.py:50-51 | a list of records decodes iff every item decodes, and then to those records in order |
| Common.DecodeListStaysFailed | prismfolio/wallet.py:43-44 | once a prefix fails, every longer prefix fails with the same error |
| Common.DecodeListFailsAt | prismfolio/wallet.py:43-44 | the first bad item decides the error of the whole list |
| Allocation.Ideal | prismfolio/investmentsuggestion.py:29-31 | the ideal is >= 0, at least the target's shortfall, equal to 0 or to that shortfall, and 0 exactly when the node is at or above its target |
| Allocation.SumNonNegative | prismfolio/investmentsuggestion.py:79-80 | a sum of non-negative ideals is non-negative |
| Allocation.SumZero | prismfolio/investmentsuggestion.py:46-49 | non-negative ideals that sum to 0 are all 0 |
| Allocation.ElementAtMostSum | prismfolio/investmentsuggestion.py:51-52 | one non-negative ideal is at most the sum of all of them |
| Allocation.DistributeSum | prismfolio/investmentsuggestion.py:51-52 | against a non-zero total the actuals sum to the ideals' sum over the total, times the contribution |
| Allocation.SplitConserves | prismfolio/investmentsuggestion.py:46-52 | siblings whose ideals have a non-zero sum receive exactly the whole contribution between them |
| Allocation.SplitOfNothingNeeded | prismfolio/investmentsuggestion.py:46-49 | siblings whose ideals sum to 0 each receive exactly 0 |
| Allocation.SplitBounds | prismfolio/investmentsuggestion.py:46-52 | with non-negative ideals and contribution, each sibling receives between 0 and the contribution, and one with ideal 0 receives 0 |
| Allocation.SharesBounds | prismfolio/investmentsuggestion.py:59-60 | with a positive price, shares * price <= actual < (shares + 1) * price; shares >= 0 when actual >= 0; 0 <= remainder < price |
| Allocation.RemaindersBounds | prismfolio/investmentsuggestion.py:59-60 | with positive prices the summed remainder is >= 0, below the sum of the prices, and at most the sum of non-negative actuals |
| Allocation.BoughtPlusRemainders | tests/test_investmentsuggestion.py:151-268 | what siblings invest is what their shares cost plus their summed remainder |
| Allocation.PlanAt | prismfolio/investmentsuggestion.py:74-112 | each group of the plan gets its ideal, its share of the contribution among the groups, its assets' frozen ideals, and their split of the group's actual |
| Allocation.PlanIdealsNonNegative | prismfolio/investmentsuggestion.py:29-31 | every group ideal and every asset ideal of the plan is >= 0 |
| Allocation.PlanConservesAmongGroups | prismfolio/investmentsuggestion.py:105-110 | the first pass splits the contribution among the groups: they receive all of it, or each 0 when no group needs anything |
| Allocation.PlanConservesWithinGroup | prismfolio/investmentsuggestion.py:85-90 | the second pass splits a group's actual among its assets, using the frozen ideals: they receive all of it, or each 0 |
| Allocation.PlanActualsBounded | prismfolio/investmentsuggestion.py:46-52 | with a non-negative contribution, every group's actual lies between 0 and the contribution and every asset's between 0 and its group's; a node with ideal 0 receives 0 |
| Allocation.PlanAssetSumOfPassingGroups | prismfolio/investmentsuggestion.py:111-112 | when each group hands its whole actual on to its assets, the assets together invest what the groups do |
| Allocation.PlanConservesOverall | prismfolio/investmentsuggestion.py:82-112 | when some group is below target and every group whose assets are all at or above target receives nothing, the assets of all groups together receive exactly the contribution |
| Allocation.PlanBoughtPlusRemainder | tests/test_investmentsuggestion.py:151-268 | the whole plan's asset investment is what its shares cost plus its remainder |
| Allocation.IdealsCover | prismfolio/investmentsuggestion.py:29-31 | siblings whose targets add up to 100 and whose totals make up their parent's need at least the contribution between them |
| Allocation.PlanDistributesContribution | prismfolio/investmentsuggestion.py:29-112 | a positive contribution to a wallet whose group targets and every group's asset targets add up to 100, with consistent totals, reaches the assets in full |
| Suggestions.AssetInputs | prismfolio/investmentsuggestion.py:76-77 | each priced asset's plan input is its target and its total amount |
| Suggestions.AllPricedConcat | prismfolio/wallet.py:21-22 | a priced concatenation has priced parts |
| Suggestions.GroupInputsAt | prismfolio/investmentsuggestion.py:105-106 | group j of a priced wallet is priced, and its plan input is entry j |
| Suggestions.AssetInputsSums | prismfolio/investmentgroup.py:25-26 | a priced group's plan inputs add up: the asset totals to the group total, the asset targets to the sum the participation check tests |
| Suggestions.GroupInputsSums | prismfolio/wallet.py:21-22 | a priced wallet's plan inputs add up: the group totals to the wallet total, the group targets to the wallet's participation sum |
| Suggestions.SuggestionDistributesContribution | prismfolio/investmentsuggestion.py:102-112 | for a priced wallet whose group targets and asset targets all add up to 100, the suggestion's plan hands the whole positive contribution to the assets |
| Suggestions.AssetSuggestion.constructor | prismfolio/investmentsuggestion.py:26-32 | the asset's ideal is computed from the group's total and the contribution; the actual starts unset |
| Suggestions.AssetSuggestion.SetNewContribution | prismfolio/investmentsuggestion.py:37-38 | the contribution is replaced |
| Suggestions.AssetSuggestion.CalculateActual | prismfolio/investmentsuggestion.py:46-52 | the actual becomes the node's share of the contribution, or 0 when the total ideal is 0 |
| Suggestions.AssetSuggestion.SuggestedInvestment | prismfolio/investmentsuggestion.py:40-44 | succeeds iff the actual has been set, and returns it; otherwise SuggestionNotReady |
| Suggestions.AssetSuggestion.SuggestedShares | prismfolio/investmentsuggestion.py:59-60 | not ready, unpriced and price 0 each give their own error; otherwise, with a positive price, the largest whole number of shares the actual buys, >= 0 when the actual is |
| Suggestions.AssetSuggestion.Remainder | tests/test_investmentsuggestion.py:151-268 | fails exactly as the shares do; remainder plus shares times price gives back the actual, and with a positive price 0 <= remainder < price |
| Suggestions.GroupSuggestion.constructor | prismfolio/investmentsuggestion.py:74-77 | the new group suggestion holds its group, ideal, contribution and children, with the actual unset |
| Suggestions.GroupSuggestion.ChildIdeals | prismfolio/investmentsuggestion.py:79-80 | the children's ideals, in order |
| Suggestions.GroupSuggestion.Create | prismfolio/investmentsuggestion.py:74-83 | fails iff an asset of the group is unpriced, with the group total's error; otherwise one fresh, distinct child per asset, with the frozen ideals, each actual the split of the wallet contribution, and the group's own actual unset |
| Suggestions.GroupSuggestion.BuildChildren | prismfolio/investmentsuggestion.py:76-77 | one fresh, distinct asset suggestion per asset, in order, with its ideal and no actual |
| Suggestions.GroupSuggestion.CalculateChildren | prismfolio/investmentsuggestion.py:79-83 | every child's actual becomes its share of the contribution, split by the children's ideals |
| Suggestions.GroupSuggestion.CalculateActual | prismfolio/investmentsuggestion.py:46-52 | the group's actual becomes its share of the contribution, or 0 when the total ideal is 0 |
| Suggestions.GroupSuggestion.SuggestedInvestment | prismfolio/investmentsuggestion.py:40-44 | succeeds iff the group's actual has been set; otherwise SuggestionNotReady |
| Suggestions.GroupSuggestion.UpdateContributionValue | prismfolio/investmentsuggestion.py:85-90 | every child takes the new contribution, and its actual becomes the split of that value by the frozen ideals |
| Suggestions.GroupSuggestion.Remainder | tests/test_investmentsuggestion.py:151-268 | the group's remainder succeeds iff every child's does |
| Suggestions.GroupSuggestion.Get | prismfolio/investmentsuggestion.py:14-15 | finds the suggestion of an asset iff the group has one for it; otherwise KeyError |
| Suggestions.RemainderSum | tests/test_investmentsuggestion.py:151-268 | succeeds iff every asset suggestion's remainder does; a failure is one of theirs |
| Suggestions.RemainderSumOf | tests/test_investmentsuggestion.py:151-268 | asset suggestions with known actuals and prices sum to the plan's summed remainder |
| Suggestions.GroupRemainderOfPlan | tests/test_investmentsuggestion.py:217-268 | a group suggestion that follows its plan has the plan's remainder |
| Suggestions.GroupRemainderSum | tests/test_investmentsuggestion.py:151-268 | succeeds iff every group suggestion's remainder does; a failure is one of theirs |
| Suggestions.GroupRemainderSumOf | tests/test_investmentsuggestion.py:217-268 | group suggestions that follow their plans have the wallet plan's remainder |
| Suggestions.ReadyWhenFollowing | prismfolio/investmentsuggestion.py:109-112 | a group suggestion that follows its plan is ready, and so is each of its children, with the plan's actuals |
| Suggestions.FindAsset | prismfolio/investmentsuggestion.py:14-15 | finds an asset's suggestion iff one is present; otherwise KeyError |
| Suggestions.WalletSuggestion.constructor | prismfolio/investmentsuggestion.py:102-106 | the new wallet suggestion holds its group suggestions |
| Suggestions.WalletSuggestion.Get | prismfolio/investmentsuggestion.py:14-15 | finds the suggestion of a group iff the wallet has one for it; otherwise KeyError |
| Suggestions.WalletSuggestion.Remainder | tests/test_investmentsuggestion.py:151-268 | the wallet's remainder succeeds iff every group's does |
| Suggestions.WalletSuggestion.Create | prismfolio/investmentsuggestion.py:102-112 | fails iff the wallet has groups and some asset is unpriced, with the wallet total's error; otherwise one fresh suggestion per group, in group order, each following its group's entry of Plan: ideals, both passes, every node ready |
| Suggestions.WalletSuggestion.Suggest | prismfolio/investmentsuggestion.py:105-112 | on priced groups, the suggestions are fresh, one per group, and follow Plan |
| Suggestions.WalletSuggestion.FirstPass | prismfolio/investmentsuggestion.py:107-110 | every group's actual becomes its share of the contribution |
| Suggestions.WalletSuggestion.SecondPass | prismfolio/investmentsuggestion.py:111-112 | every group hands its actual to its children, split by their frozen ideals |
| Suggestions.WalletSuggestion.BuildGroups | prismfolio/investmentsuggestion.py:105-106 | one fresh, separate group suggestion per group, in order, as Create leaves it |
| Suggestions.WalletSuggestion.AddGroup | prismfolio/investmentsuggestion.py:105-106 | one more group suggestion, fresh and separate from the others |
| Suggestions.Ideals | prismfolio/investmentsuggestion.py:107-108 | the group suggestions' ideals, in order |
| Suggestions.FindGroup | prismfolio/investmentsuggestion.py:14-15 | finds a group's suggestion iff one is present; otherwise KeyError |
| Scenarios.PlanWithoutContribution | tests/test_investmentsuggestion.py:7-28 | a contribution of 0 gives every group and every asset an actual of 0 |
| Scenarios.NothingBuysNothing | tests/test_investmentsuggestion.py:7-28 | an actual of 0 buys 0 shares and leaves 0 |
| Scenarios.SingleAssetTakesAll | tests/test_investmentsuggestion.py:39-56 | one group of one unheld asset receives the whole contribution, and so does the asset |
| Scenarios.SingleAssetRemainders | tests/test_investmentsuggestion.py:217-268 | at price 5: 54 buys 10 shares and leaves 4; 10.5 leaves 0.5, 41.5 leaves 1.5, 5 leaves 0, and 1 to 4 leave themselves |
| Scenarios.SingleAssetWalletRemainder | tests/test_investmentsuggestion.py:217-248 | the single-asset wallet's remainder at price 5, for contributions 5, 54, 10.5, 41.5 and 0 |
| Scenarios.SingleAssetPlanRemainder | tests/test_investmentsuggestion.py:217-268 | for any positive contribution, that wallet's remainder is the contribution's remainder at price 5 |
| Scenarios.FiveEqualAssets | tests/test_investmentsuggestion.py:58-106 | five unheld assets at 20% share 100 as 20 each, which buy 20, 10, 6, 5 and 2 shares at prices 1, 2, 3, 4 and 7 |
| Scenarios.TwoEmptyGroups | tests/test_investmentsuggestion.py:109-122 | two empty groups at 50% each receive 50 of 100 |
| Scenarios.FullGroupGetsNothing | tests/test_investmentsuggestion.py:125-148 | a group already at target gets 0 and buys 0 shares; its sibling gets all 100 and buys 10 shares at 10 |
| Scenarios.NoRemainderThirtySeventy | tests/test_investmentsuggestion.py:165-179 | assets at 30% and 70% of 100 receive 30 and 70 and leave no remainder at price 1 |
| Scenarios.NoRemainderTwoGroups | tests/test_investmentsuggestion.py:182-214 | two groups at 50% share 200; their assets receive 50, 50 and four times 25, and leave no remainder at price 1 |
| Scenarios.UnderTargetedGroupKeepsItsShare | prismfolio/investmentsuggestion.py:46-49 | a group 10 below target whose only asset, targeted at 50%, is above target receives 10, and its asset 0, so the plan hands out nothing of the contribution |

## Left out

- `from_json` (asset, group and wallet): a thin wrapper over JSON parsing. `from_dict` is modelled over the `Value` datatype instead.
- `prismfolio/brapi.py` and `app.py` are not part of this model. They hold network access, file access, argument parsing and printing. Pricing is a function parameter.
- Logging: the participation-sum warnings are returned as `SumCheck` values, one per group and one for the wallet, and not printed. Their text formatting is left out.
- `__repr__` of the suggestions: string presentation only.
- `__iter__` and `__len__` of the suggestion dicts: a dict is modelled as a sequence in insertion order, and `WalletSuggestion.Length` is the number of group suggestions.
- Floating point: money, prices and targets are `real`. Float rounding is not modelled.
- `isinstance` checks: these are kept as `WrongType`/`NotADict` errors on the decoding path (`Value`). With typed arguments, as in `Asset.Create`, Dafny's types make them unnecessary.
- Suggestions.WalletSuggestion.Create: requires the wallet's groups to be distinct objects, and the assets within each group to be distinct. The source keys its suggestion dicts by object identity, and a repeated object would collapse into one entry.
- Suggestions.AssetSuggestion.constructor: requires a priced asset. In the source the group's total is computed first and raises on the same condition, so no caller reaches it with an unpriced asset.
- Suggestions.GroupSuggestion.Create and Suggestions.WalletSuggestion.Create: read the wallet total and each group total once, where the source reads them again per child. Nothing between those reads changes a price.
- Suggestions.AssetSuggestion.SuggestedShares: a price of exactly 0 gives an explicit `DivisionByZero` error, standing for Python's `ZeroDivisionError`. The bounds on shares are stated for positive prices only.
- Allocation.PlanConservesOverall: conservation over the whole tree is stated only when every group that receives money has some asset below target. A group whose asset targets add up to less than 100 can receive a share that none of its assets takes, and the source then hands out less than the contribution (Scenarios.UnderTargetedGroupKeepsItsShare). Allocation.PlanDistributesContribution shows that targets adding up to 100 at both levels rule this out.
- A negative contribution is not rejected, as in the source. The non-negativity results (`SplitBounds`, `PlanActualsBounded`) assume a contribution >= 0.
- `get_remainder` is not in the source's suggestion classes. It is defined from the project's tests as actual minus shares times price, summed upward over groups and the wallet.
- Getters of fields (`get_code`, `get_quantity`, `get_target_participation`, `get_name`, `get_assets`, `get_investment_groups`, `get_asset`, `get_investment_group`) are the class's fields. `has_asset` and `has_investment_group` are `HasAsset` and `HasInvestmentGroup`, which say whether the list is non-empty.
