/** An asset: a code, a held quantity, a price set later by a pricing
    collaborator, a price-earnings ratio and a target participation. */
module Assets {
  import opened Common
  import opened Participation

  /** A pricing (or price-earnings) collaborator: given an asset code it
      answers a number or `None` (a quote without that field), or fails with
      the cause of the failure. */
  type PricingFunction = string -> Result<Option<real>, string>

  /** The code check: a code must be a non-empty string. */
  function CheckCode(code: string): (r: Result<string, Error>)
    ensures r.Ok? <==> |code| > 0
    ensures r.Ok? ==> r.value == code
    ensures r.Err? ==> r.error == EmptyCode
  {
    if |code| == 0 then Err(EmptyCode) else Ok(code)
  }

  /** The quantity check, shared by the constructor and `buy`. */
  function CheckQuantity(quantity: int): (r: Result<int, Error>)
    ensures r.Ok? <==> quantity >= 0
    ensures r.Ok? ==> r.value == quantity
    ensures r.Err? ==> r.error == NegativeQuantity(quantity)
  {
    if quantity < 0 then Err(NegativeQuantity(quantity)) else Ok(quantity)
  }

  /** What the constructor validates, in its order: the code, then the
      quantity, then the target participation. */
  function CheckAsset(code: string, quantity: int, target: real): (r: Result<Percent, Error>)
    ensures r.Ok? <==> |code| > 0 && quantity >= 0 && 0.0 < target <= 100.0
    ensures r.Ok? ==> r.value == target
    ensures |code| == 0 ==> r == Err(EmptyCode)
    ensures |code| > 0 && quantity < 0 ==> r == Err(NegativeQuantity(quantity))
    ensures |code| > 0 && quantity >= 0 ==> r == NewParticipation(target)
    ensures r.Err? ==> r.error.IsValueError()
  {
    var _ :- CheckCode(code);
    var _ :- CheckQuantity(quantity);
    NewParticipation(target)
  }

  /** The price (or price-earnings ratio) an asset holds after asking the
      pricing function: whatever it answered, `None` included, or the previous
      value when the function failed. */
  function PriceAfter(before: Option<real>, answer: Result<Option<real>, string>): Option<real> {
    if answer.Ok? then answer.value else before
  }

  /** What `update_price` and `update_price_earnings` return: the answer, or
      the failure wrapped as an `AssetPricingError` naming the asset. */
  function PricingOutcome(code: string, answer: Result<Option<real>, string>): (r: Result<Option<real>, Error>)
    ensures r.Ok? <==> answer.Ok?
    ensures r.Ok? ==> r.value == answer.value
    ensures r.Err? ==> r.error == AssetPricingError(code, answer.error)
  {
    match answer
    case Ok(v) => Ok(v)
    case Err(cause) => Err(AssetPricingError(code, cause))
  }

  /** The validated fields of an asset record. */
  datatype AssetRecord = AssetRecord(code: string, quantity: int, target: Percent)

  /** `_check_code_argument` on a Python value. */
  function CodeFromValue(v: Value): (r: Result<string, Error>)
    ensures r.Ok? <==> v.PyStr? && |v.s| > 0
    ensures r.Ok? ==> r.value == v.s
    ensures !v.PyStr? ==> r == Err(WrongType("code"))
    ensures v.PyStr? && |v.s| == 0 ==> r == Err(EmptyCode)
  {
    if v.PyStr? then CheckCode(v.s) else Err(WrongType("code"))
  }

  /** `_check_quantity_argument` on a Python value: a bool is not an int here. */
  function QuantityFromValue(v: Value): (r: Result<int, Error>)
    ensures r.Ok? <==> v.PyInt? && v.i >= 0
    ensures r.Ok? ==> r.value == v.i
    ensures !v.PyInt? ==> r == Err(WrongType("quantity"))
    ensures v.PyInt? && v.i < 0 ==> r == Err(NegativeQuantity(v.i))
  {
    if v.PyInt? then CheckQuantity(v.i) else Err(WrongType("quantity"))
  }

  /** `Asset.from_dict`: the record must be a dict; its three keys are read
      with `get` (a missing key is None) and checked as the constructor does. */
  function DecodeAsset(v: Value): (r: Result<AssetRecord, Error>)
    ensures !v.PyDict? ==> r == Err(NotADict)
    ensures r.Ok? <==>
      && v.PyDict?
      && v.Get("code").PyStr? && v.Get("quantity").PyInt? && v.Get("target_participation").PyFloat?
      && CheckAsset(v.Get("code").s, v.Get("quantity").i, v.Get("target_participation").f).Ok?
    ensures r.Ok? ==>
      r.value == AssetRecord(v.Get("code").s, v.Get("quantity").i, v.Get("target_participation").f)
    ensures r.Err? ==> r.error.IsTypeError() || r.error.IsValueError()
  {
    if !v.PyDict? then Err(NotADict)
    else
      var code :- CodeFromValue(v.Get("code"));
      var quantity :- QuantityFromValue(v.Get("quantity"));
      var target :- ParticipationFromValue(v.Get("target_participation"), "target_participation");
      Ok(AssetRecord(code, quantity, target))
  }

  class Asset {
    const code: string
    var quantity: int
    var price: Option<real>
    var priceEarnings: Option<real>
    const target: Percent

    /** The invariant the constructor establishes and `Buy` keeps. */
    ghost predicate Valid()
      reads this
    {
      |code| > 0 && quantity >= 0
    }

    /** An asset from arguments that already passed `CheckAsset`; the
        checked entry points are `Create` and `FromDict`. */
    constructor (code: string, quantity: int, target: Percent)
      requires CheckAsset(code, quantity, target).Ok?
      ensures Valid()
      ensures this.code == code && this.quantity == quantity && this.target == target
      ensures price == None && priceEarnings == Some(0.0)
    {
      this.code := code;
      this.quantity := quantity;
      this.target := target;
      price := None;
      priceEarnings := Some(0.0);
    }

    /** `Asset(code, quantity, target_participation)`: fails exactly as
        `CheckAsset` does; otherwise the asset holds its arguments and no price. */
    static method Create(code: string, quantity: int, target: real) returns (r: Result<Asset, Error>)
      ensures r.Err? <==> CheckAsset(code, quantity, target).Err?
      ensures r.Err? ==> r.error == CheckAsset(code, quantity, target).error
      ensures r.Ok? ==> fresh(r.value) && r.value.Valid()
      ensures r.Ok? ==> r.value.code == code && r.value.quantity == quantity && r.value.target == target
      ensures r.Ok? ==> r.value.price == None && r.value.priceEarnings == Some(0.0)
    {
      var t :- CheckAsset(code, quantity, target);
      var a := new Asset(code, quantity, t);
      return Ok(a);
    }

    /** `Asset.from_dict`: fails exactly as `DecodeAsset` does; otherwise the
        asset holds the record's fields and no price. */
    static method FromDict(v: Value) returns (r: Result<Asset, Error>)
      ensures r.Err? <==> DecodeAsset(v).Err?
      ensures r.Err? ==> r.error == DecodeAsset(v).error
      ensures r.Ok? ==> fresh(r.value) && r.value.Valid() && r.value.Holds(DecodeAsset(v).value)
    {
      var rec :- DecodeAsset(v);
      var a := new Asset(rec.code, rec.quantity, rec.target);
      return Ok(a);
    }

    /** The asset holds exactly the record's fields and has not been priced. */
    ghost predicate Holds(rec: AssetRecord)
      reads this
    {
      code == rec.code && quantity == rec.quantity && target == rec.target
      && price == None && priceEarnings == Some(0.0)
    }

    function HasCurrentPrice(): bool
      reads this
    {
      price.Some?
    }

    /** `get_price`: the price, or `AssetWithNoPrice` before any pricing. */
    function GetPrice(): (r: Result<real, Error>)
      reads this
      ensures r.Ok? <==> HasCurrentPrice()
      ensures r.Ok? ==> Some(r.value) == price
      ensures r.Err? ==> r.error == AssetWithNoPrice(code)
    {
      if price.None? then Err(AssetWithNoPrice(code)) else Ok(price.value)
    }

    /** `get_total_amount`: price times quantity, failing like `get_price`. */
    function TotalAmount(): (r: Result<real, Error>)
      reads this
      ensures r.Ok? <==> HasCurrentPrice()
      ensures r.Ok? ==> r.value == price.value * quantity as real
      ensures r.Err? ==> r.error == AssetWithNoPrice(code)
    {
      var p :- GetPrice();
      Ok(p * quantity as real)
    }

    /** `buy`: a negative quantity is refused before anything changes;
        otherwise the held quantity grows by exactly that much. */
    method Buy(n: int) returns (r: Result<(), Error>)
      requires Valid()
      modifies this`quantity
      ensures Valid()
      ensures r.Ok? <==> n >= 0
      ensures r.Err? ==> r.error == NegativeQuantity(n)
      ensures quantity == if n >= 0 then old(quantity) + n else old(quantity)
    {
      var _ :- CheckQuantity(n);
      quantity := quantity + n;
      return Ok(());
    }

    /** `update_price`: stores and returns the pricing function's answer for
        this code, 0 and `None` included, so a `None` answer unprices the
        asset; a failure keeps the previous price. */
    method UpdatePrice(pricing: PricingFunction) returns (r: Result<Option<real>, Error>)
      modifies this`price
      ensures price == PriceAfter(old(price), pricing(code))
      ensures r == PricingOutcome(code, pricing(code))
    {
      var answer := pricing(code);
      if answer.Err? {
        return Err(AssetPricingError(code, answer.error));
      }
      price := answer.value;
      return Ok(answer.value);
    }

    /** `update_price_earnings`: the same for the price-earnings ratio. */
    method UpdatePriceEarnings(earnings: PricingFunction) returns (r: Result<Option<real>, Error>)
      modifies this`priceEarnings
      ensures priceEarnings == PriceAfter(old(priceEarnings), earnings(code))
      ensures r == PricingOutcome(code, earnings(code))
    {
      var answer := earnings(code);
      if answer.Err? {
        return Err(AssetPricingError(code, answer.error));
      }
      priceEarnings := answer.value;
      return Ok(answer.value);
    }
  }
}
