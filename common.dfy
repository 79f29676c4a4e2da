/** Types shared by the whole portfolio model: optional values, results, the
    errors the portfolio raises, and the structured records that the loaders
    read (the Python values a `from_dict` receives). */
module Common {

  datatype Option<+T> = None | Some(value: T)

  /** Success or failure; failure-compatible, so `:-` propagates an error. */
  datatype Result<+T, +E> = Ok(value: T) | Err(error: E) {
    predicate IsFailure() { Err? }

    function PropagateFailure<U>(): Result<U, E>
      requires Err?
    {
      Err(error)
    }

    function Extract(): T
      requires Ok?
    {
      value
    }
  }

  /** The exceptions of the portfolio, one constructor per distinct failure.
      `IsTypeError` and `IsValueError` group them as Python classifies them. */
  datatype Error =
    | NotADict                                // from_dict given something that is not a dict
    | WrongType(field: string)                // a field of the wrong Python type (a missing key reads as None)
    | NotIterable(field: string)              // a loop over a value that cannot be iterated
    | EmptyCode                               // asset code is ""
    | NegativeQuantity(quantity: int)         // asset quantity or bought quantity below 0
    | EmptyName                               // group name is ""
    | NegativeParticipation(participation: real)
    | ZeroParticipation
    | ParticipationAboveHundred(participation: real)
    | AssetWithNoPrice(code: string)          // price read before any pricing
    | AssetPricingError(code: string, cause: string)  // the pricing function failed
    | SuggestionNotReady                      // suggested investment read before it is computed
    | DivisionByZero(code: string)            // share count of an asset priced at 0
    | KeyError                                // lookup of a child the suggestion does not hold
  {
    predicate IsTypeError() { NotADict? || WrongType? || NotIterable? }

    predicate IsValueError() {
      EmptyCode? || NegativeQuantity? || EmptyName? || NegativeParticipation?
      || ZeroParticipation? || ParticipationAboveHundred?
    }
  }

  /** A Python value as `from_dict` receives it. A dict keeps its entries in
      insertion order, as Python dicts do. */
  datatype Value =
    | PyNone
    | PyBool(b: bool)
    | PyInt(i: int)
    | PyFloat(f: real)
    | PyStr(s: string)
    | PyList(items: seq<Value>)
    | PyDict(entries: seq<(string, Value)>)
  {
    /** `dict.get(key)`: the value of the last entry with that key (a later
        entry overrides an earlier one), None when there is none. */
    function Get(key: string): (v: Value)
      requires PyDict?
      ensures (forall i :: 0 <= i < |entries| ==> entries[i].0 != key) ==> v == PyNone
      decreases |entries|
    {
      if |entries| == 0 then PyNone
      else if entries[|entries| - 1].0 == key then entries[|entries| - 1].1
      else PyDict(entries[..|entries| - 1]).Get(key)
    }
  }

  /** What a `for x in v` loop visits: the items of a list, the keys of a
      dict, the one-character strings of a string; any other value raises a
      `TypeError` naming the field it came from. */
  function Iterate(v: Value, field: string): (r: Result<seq<Value>, Error>)
    ensures r.Err? <==> !(v.PyList? || v.PyDict? || v.PyStr?)
    ensures r.Err? ==> r.error == NotIterable(field)
    ensures v.PyList? ==> r == Ok(v.items)
    ensures v.PyDict? || v.PyStr? ==> r.Ok? && forall i :: 0 <= i < |r.value| ==> r.value[i].PyStr?
    ensures v.PyDict? ==> r.Ok? && |r.value| == |v.entries|
    ensures v.PyStr? ==> r.Ok? && |r.value| == |v.s|
  {
    match v
    case PyList(items) => Ok(items)
    case PyDict(entries) => Ok(Keys(entries))
    case PyStr(s) => Ok(Characters(s))
    case _ => Err(NotIterable(field))
  }

  /** The keys of a dict's entries, in order, as Python strings. */
  function Keys(entries: seq<(string, Value)>): (r: seq<Value>)
    ensures |r| == |entries|
    ensures forall i :: 0 <= i < |r| ==> r[i] == PyStr(entries[i].0)
  {
    if |entries| == 0 then [] else [PyStr(entries[0].0)] + Keys(entries[1..])
  }

  /** The one-character strings of a string, in order. */
  function Characters(s: string): (r: seq<Value>)
    ensures |r| == |s|
    ensures forall i :: 0 <= i < |r| ==> r[i] == PyStr([s[i]])
  {
    if |s| == 0 then [] else [PyStr([s[0]])] + Characters(s[1..])
  }

  /** The records of the first `n` items of a list, each decoded by
      `decode`, in list order; the first item that fails fails them all,
      as a `for` loop that raises on a bad item does. */
  function DecodeList<R>(decode: Value -> Result<R, Error>, items: seq<Value>, n: nat): Result<seq<R>, Error>
    requires n <= |items|
  {
    if n == 0 then Ok([])
    else
      var before :- DecodeList(decode, items, n - 1);
      var last :- decode(items[n - 1]);
      Ok(before + [last])
  }

  /** The first `n` items decode exactly when each of them does, to their
      records in order. */
  lemma {:induction false} DecodeListMeaning<R>(decode: Value -> Result<R, Error>, items: seq<Value>, n: nat)
    requires n <= |items|
    ensures DecodeList(decode, items, n).Ok? <==> forall i :: 0 <= i < n ==> decode(items[i]).Ok?
    ensures DecodeList(decode, items, n).Ok? ==>
      var recs := DecodeList(decode, items, n).value;
      |recs| == n && forall i :: 0 <= i < n ==> decode(items[i]) == Ok(recs[i])
  {
    if n > 0 {
      DecodeListMeaning(decode, items, n - 1);
    }
  }

  /** Once a prefix fails, every longer prefix fails with the same error. */
  lemma {:induction false} DecodeListStaysFailed<R>(decode: Value -> Result<R, Error>, items: seq<Value>, k: nat, n: nat)
    requires k <= n <= |items|
    requires DecodeList(decode, items, k).Err?
    ensures DecodeList(decode, items, n) == DecodeList(decode, items, k)
    decreases n
  {
    if n > k {
      DecodeListStaysFailed(decode, items, k, n - 1);
    }
  }

  /** The first bad item decides the error of the whole list. */
  lemma DecodeListFailsAt<R>(decode: Value -> Result<R, Error>, items: seq<Value>, k: nat)
    requires k < |items|
    requires forall i :: 0 <= i < k ==> decode(items[i]).Ok?
    requires decode(items[k]).Err?
    ensures DecodeList(decode, items, |items|) == Err(decode(items[k]).error)
  {
    DecodeListMeaning(decode, items, k);
    DecodeListStaysFailed(decode, items, k + 1, |items|);
  }
}
