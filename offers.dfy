/**
  * The upstream incentive document and the flat offer records the agent
  * builds from it.
  */
module Offers {
  import opened Wrappers

  /** A JSON value, for the fields that are copied through unchanged. */
  datatype Value =
    | Null
    | Bool(b: bool)
    | Num(n: real)
    | Str(s: string)
    | Arr(items: seq<Value>)
    | Obj(fields: map<string, Value>)

  /** One offer sub-object of a `cardOrder` slot. */
  type Fields = map<string, Value>

  /**
    * A vehicle of a year-group. The three scalar fields are read with
    * `.get(key)`, which makes an absent key and a JSON null the same `None`.
    * `cardOrder` is `None` when the key is absent; a slot holding JSON null
    * is `None` inside the map.
    */
  datatype Vehicle = Vehicle(
    modelName: Option<string>,
    fuelType: Value,
    groupCode: Value,
    cardOrder: Option<map<string, Option<Fields>>>)

  /** A year-group: its `modelYear` (`Null` when absent) and its vehicles. */
  datatype YearGroup = YearGroup(modelYear: Value, vehicles: Option<seq<Vehicle>>)

  datatype Entry = Entry(years: Option<seq<YearGroup>>)

  /** The whole response body; `data` is `None` when the key is absent. */
  datatype Document = Document(data: Option<seq<Entry>>)

  /** One flattened offer record, one field per key of the dictionary the agent emits. */
  datatype Offer = Offer(
    model: Option<string>,
    modelYear: Value,
    trim: Value,
    offerType: string,
    monthlyPayment: Option<real>,
    term: Value,
    apr: Value,
    price: Value,
    description: Value,
    disclaimer: Value,
    fuel: Value,
    groupCode: Value)

  /** What the agent's operations raise. */
  datatype Error =
    | NotANumber(raw: Value)   // `float(...)` rejected an `offerMonthlyPayment` value
    | ModelIsNone              // `.lower()` called on a record whose model is None

  /** The four `cardOrder` slots, in the order the agent visits them. */
  const CardOrderTags: seq<string> := ["lease1", "lease2", "lowApr", "savings"]

  /** `offer.get(key)`. */
  function Get(m: Fields, key: string): Value {
    if key in m then m[key] else Null
  }

  function OrEmpty<T>(s: Option<seq<T>>): seq<T> {
    if s.Some? then s.value else []
  }

  /**
    * The list two steps of the agent append to `offers`, one after the other:
    * the first failure wins, otherwise the records are concatenated.
    */
  function Join(a: Result<seq<Offer>, Error>, b: Result<seq<Offer>, Error>): Result<seq<Offer>, Error> {
    match a
    case Err(e) => Err(e)
    case Ok(xs) =>
      match b
      case Err(e) => Err(e)
      case Ok(ys) => Ok(xs + ys)
  }

  lemma JoinAssociative(a: Result<seq<Offer>, Error>, b: Result<seq<Offer>, Error>, c: Result<seq<Offer>, Error>)
    ensures Join(Join(a, b), c) == Join(a, Join(b, c))
  {
    if a.Ok? && b.Ok? && c.Ok? {
      assert (a.value + b.value) + c.value == a.value + (b.value + c.value);
    }
  }

  lemma JoinEmpty(a: Result<seq<Offer>, Error>)
    ensures Join(Ok([]), a) == a && Join(a, Ok([])) == a
  {
    if a.Ok? {
      assert [] + a.value == a.value && a.value + [] == a.value;
    }
  }
}
