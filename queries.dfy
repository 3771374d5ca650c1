/**
  * The agent's three queries over the extracted records:
  * `get_offers_by_type`, `get_all_model_names` and
  * `get_available_payment_offers`. Each first runs `extract_offers` on the
  * document and raises whatever it raises.
  */
module Queries {
  import opened Wrappers
  import opened Offers
  import opened Text
  import opened Seqs
  import opened Extraction

  // ---------------------------------------------------------------------
  // get_offers_by_type

  /** The test of `get_offers_by_type`: the record's type occurs in the lowered argument. */
  function TypeOccursIn(offerType: string): Offer -> bool {
    (o: Offer) => Contains(Lower(offerType), o.offerType)
  }

  /**
    * `get_offers_by_type(offerType)`: fails exactly when extraction fails,
    * with its error, and otherwise returns only records whose type occurs in
    * the lowered argument.
    */
  function OffersByType(doc: Document, toFloat: FloatConversion, offerType: string): (r: Result<seq<Offer>, Error>)
    ensures r.Err? <==> Extract(doc, toFloat).Err?
    ensures r.Err? ==> r.error == Extract(doc, toFloat).error
    ensures r.Ok? ==> forall o :: o in r.value ==> o in Extract(doc, toFloat).value && Contains(Lower(offerType), o.offerType)
  {
    match Extract(doc, toFloat)
    case Err(e) => Err(e)
    case Ok(offers) => Ok(Filter(offers, TypeOccursIn(offerType)))
  }

  /**
    * The result keeps, in their order, exactly the records whose type
    * occurs in the lowered argument, each as many times as extraction
    * produced it; it fails when extraction fails.
    */
  lemma OffersByTypeSelects(doc: Document, toFloat: FloatConversion, offerType: string)
    ensures OffersByType(doc, toFloat, offerType).Err? <==> Extract(doc, toFloat).Err?
    ensures OffersByType(doc, toFloat, offerType).Ok? ==>
      var offers, rs := Extract(doc, toFloat).value, OffersByType(doc, toFloat, offerType).value;
      && IsSubsequence(rs, offers)
      && (forall o :: o in rs <==> o in offers && Contains(Lower(offerType), o.offerType))
      && (forall o :: multiset(rs)[o] == if Contains(Lower(offerType), o.offerType) then multiset(offers)[o] else 0)
  {
    if Extract(doc, toFloat).Ok? {
      var offers := Extract(doc, toFloat).value;
      forall o ensures multiset(Filter(offers, TypeOccursIn(offerType)))[o] ==
        if Contains(Lower(offerType), o.offerType) then multiset(offers)[o] else 0
      {
        FilterMultiplicity(offers, TypeOccursIn(offerType), o);
      }
    }
  }

  /** No argument ever selects `lowApr` records: a lowered string holds no capital `A`. */
  lemma LowAprNeverSelected(doc: Document, toFloat: FloatConversion, offerType: string)
    requires OffersByType(doc, toFloat, offerType).Ok?
    ensures forall o :: o in OffersByType(doc, toFloat, offerType).value ==> o.offerType != "lowApr"
  {
    assert IsUpper("lowApr"[3]);
    LowerNeverContainsUpper(offerType, "lowApr", 3);
  }

  /**
    * An argument shorter than every tag, such as "lease", selects nothing:
    * the tag must occur inside the argument, not the other way round.
    */
  lemma ShortArgumentSelectsNothing(doc: Document, toFloat: FloatConversion, offerType: string)
    requires |offerType| < 6
    requires OffersByType(doc, toFloat, offerType).Ok?
    ensures OffersByType(doc, toFloat, offerType).value == []
  {
    var offers := Extract(doc, toFloat).value;
    ExtractedTypesAreTags(doc, toFloat);
    forall o | o in offers ensures !TypeOccursIn(offerType)(o) {
      assert |o.offerType| >= 6 by {
        assert o.offerType in CardOrderTags;
      }
    }
    FilterEmpty(offers, TypeOccursIn(offerType));
  }

  /** A different string that is no shorter, or starts with a character `t` lacks, does not occur in `t`. */
  lemma NotContainedWhenDifferent(t: string, u: string)
    requires u != t
    requires |u| >= |t| || (u != [] && u[0] !in t)
    ensures !Contains(t, u)
  {
    if Contains(t, u) {
      if |u| == |t| {
        ContainsSameLength(t, u);
      } else {
        ContainsChar(t, u, 0);
      }
    }
  }

  /** The three tags without a capital letter. */
  predicate IsLowerCaseTag(t: string) {
    t == "lease1" || t == "lease2" || t == "savings"
  }

  lemma TagsWithoutCapitals(t: string)
    requires IsLowerCaseTag(t)
    ensures Lower(t) == t
  {
    assert forall i :: 0 <= i < |t| ==> 'a' <= t[i] <= 'z' || '0' <= t[i] <= '9';
    LowerOfLower(t);
  }

  lemma OtherTagsDoNotFit(t: string, u: string)
    requires IsLowerCaseTag(t) && u in CardOrderTags && u != t
    ensures |u| >= |t| || u[0] !in t
  {
  }

  /** Which tags occur in the tag `t`, for the three tags without a capital. */
  lemma TagOccursInTag(t: string, u: string)
    requires IsLowerCaseTag(t) && u in CardOrderTags
    ensures Contains(Lower(t), u) <==> u == t
  {
    TagsWithoutCapitals(t);
    if u == t {
      assert u <= t;
    } else {
      OtherTagsDoNotFit(t, u);
      NotContainedWhenDifferent(t, u);
    }
  }

  /** The test `o["type"] == t`. */
  function HasType(t: string): Offer -> bool {
    (o: Offer) => o.offerType == t
  }

  /**
    * Passing `lease1`, `lease2` or `savings` selects exactly the records of
    * that type: the same list, in the same order and with the same
    * repetitions, as filtering the records on type equality.
    */
  lemma ExactTagSelectsThatTag(doc: Document, toFloat: FloatConversion, t: string)
    requires IsLowerCaseTag(t)
    requires OffersByType(doc, toFloat, t).Ok?
    ensures OffersByType(doc, toFloat, t).value == Filter(Extract(doc, toFloat).value, HasType(t))
  {
    var offers := Extract(doc, toFloat).value;
    ExtractedTypesAreTags(doc, toFloat);
    forall o | o in offers ensures TypeOccursIn(t)(o) == HasType(t)(o) {
      TagOccursInTag(t, o.offerType);
    }
    FilterCongruent(offers, TypeOccursIn(t), HasType(t));
  }

  /** The argument values the command-line help names: "lease", "finance" and "rebate". */
  predicate IsDocumentedArgument(s: string) {
    s == "lease" || s == "finance" || s == "rebate"
  }

  /** Neither "finance" nor "rebate" has a tag inside it. */
  lemma NoTagInLongArgument(s: string, u: string)
    requires s == "finance" || s == "rebate"
    requires u in CardOrderTags
    ensures !Contains(Lower(s), u)
  {
    assert forall i :: 0 <= i < |s| ==> 'a' <= s[i] <= 'z';
    LowerOfLower(s);
    if u == "lowApr" {
      assert IsUpper(u[3]);
      LowerNeverContainsUpper(s, u, 3);
    } else if u == "savings" {
      NotContainedWhenDifferent(s, u);
    } else {
      assert u[0] == 'l' && 'l' !in s;
      NotContainedWhenDifferent(s, u);
    }
  }

  /**
    * None of the documented arguments selects anything: each is a word that
    * no tag occurs in, so `get_offers_by_type` returns an empty list for
    * every one of them whenever extraction succeeds.
    */
  lemma DocumentedArgumentsSelectNothing(doc: Document, toFloat: FloatConversion, offerType: string)
    requires IsDocumentedArgument(offerType)
    requires OffersByType(doc, toFloat, offerType).Ok?
    ensures OffersByType(doc, toFloat, offerType).value == []
  {
    if offerType == "lease" {
      ShortArgumentSelectsNothing(doc, toFloat, offerType);
    } else {
      var offers := Extract(doc, toFloat).value;
      ExtractedTypesAreTags(doc, toFloat);
      forall o | o in offers ensures !TypeOccursIn(offerType)(o) {
        NoTagInLongArgument(offerType, o.offerType);
      }
      FilterEmpty(offers, TypeOccursIn(offerType));
    }
  }

  // ---------------------------------------------------------------------
  // get_all_model_names

  /** The model names a record list mentions, leaving out None and "". */
  ghost function NamedModels(offers: seq<Offer>): set<string> {
    set o | o in offers && o.model.Some? && o.model.value != "" :: o.model.value
  }

  /** `sorted(set(o["model"] for o in offers if o.get("model")))`. */
  function SortedModelNames(offers: seq<Offer>): (names: seq<string>)
    ensures StrictlyAscending(names)
    ensures forall n :: n in names <==> n in NamedModels(offers)
  {
    if offers == [] then []
    else
      var rest := SortedModelNames(offers[1..]);
      var m := offers[0].model;
      assert forall o :: o in offers <==> o == offers[0] || o in offers[1..];
      if m.Some? && m.value != "" then Insert(rest, m.value) else rest
  }

  /**
    * `get_all_model_names()`: fails exactly when extraction fails; otherwise
    * each non-empty model of the records once, in ascending order.
    */
  function ModelNames(doc: Document, toFloat: FloatConversion): (r: Result<seq<string>, Error>)
    ensures r.Err? <==> Extract(doc, toFloat).Err?
    ensures r.Err? ==> r.error == Extract(doc, toFloat).error
    ensures r.Ok? ==> StrictlyAscending(r.value)
    ensures r.Ok? ==> forall n :: n in r.value <==> n in NamedModels(Extract(doc, toFloat).value)
  {
    match Extract(doc, toFloat)
    case Err(e) => Err(e)
    case Ok(offers) => Ok(SortedModelNames(offers))
  }

  /**
    * The model names are the one strictly ascending list of the non-empty
    * models of the records: any other such list is equal to it.
    */
  lemma ModelNamesAreSortedSet(offers: seq<Offer>, other: seq<string>)
    requires StrictlyAscending(other)
    requires forall n :: n in other <==> n in NamedModels(offers)
    ensures SortedModelNames(offers) == other
  {
    AscendingUnique(SortedModelNames(offers), other);
  }

  // ---------------------------------------------------------------------
  // get_available_payment_offers

  /** `if model:` the model filter is given and not empty. */
  predicate FiltersByModel(model: Option<string>) {
    model.Some? && model.value != ""
  }

  /**
    * The guards of one loop iteration: keep the record, skip it, or raise.
    * The record is kept exactly when it qualifies; the iteration raises
    * exactly when a record with a payment has no model under an active
    * model filter.
    */
  function PaymentCheck(o: Offer, model: Option<string>, maxPrice: Option<real>): (r: Result<bool, Error>)
    ensures r == Ok(true) <==> Qualifies(model, maxPrice)(o)
    ensures r.Err? <==> o.monthlyPayment.Some? && FiltersByModel(model) && o.model.None?
    ensures r.Err? ==> r.error == ModelIsNone
  {
    if o.monthlyPayment.None? then Ok(false)
    else if FiltersByModel(model) && o.model.None? then Err(ModelIsNone)
    else if FiltersByModel(model) && Lower(o.model.value) != Lower(model.value) then Ok(false)
    else if maxPrice.Some? && o.monthlyPayment.value > maxPrice.value then Ok(false)
    else Ok(true)
  }

  /**
    * The `filtered` list the loop builds from `offers`, or what it raises:
    * when it succeeds, an order-preserving part of `offers` holding exactly
    * the qualifying records.
    */
  function SelectPayments(offers: seq<Offer>, model: Option<string>, maxPrice: Option<real>): (r: Result<seq<Offer>, Error>)
    ensures r.Err? ==> r.error == ModelIsNone
    ensures r.Ok? ==> IsSubsequence(r.value, offers)
    ensures r.Ok? ==> forall o :: o in r.value <==> o in offers && Qualifies(model, maxPrice)(o)
  {
    if offers == [] then Ok([])
    else
      match PaymentCheck(offers[0], model, maxPrice)
      case Err(e) => Err(e)
      case Ok(keep) =>
        var rest := SelectPayments(offers[1..], model, maxPrice);
        var head := if keep then [offers[0]] else [];
        assert rest.Ok? ==> IsSubsequence(rest.value, offers);
        assert rest.Ok? ==> (head + rest.value)[|head|..] == rest.value;
        assert rest.Ok? ==> IsSubsequence(head + rest.value, offers);
        Join(Ok(head), rest)
  }

  /**
    * `get_available_payment_offers(model, max_price)`: fails when
    * extraction fails, and otherwise returns qualifying records of the
    * extraction, in their order.
    */
  function AvailablePayments(doc: Document, toFloat: FloatConversion, model: Option<string>, maxPrice: Option<real>): (r: Result<seq<Offer>, Error>)
    ensures Extract(doc, toFloat).Err? ==> r.Err? && r.error == Extract(doc, toFloat).error
    ensures r.Ok? ==> Extract(doc, toFloat).Ok? && IsSubsequence(r.value, Extract(doc, toFloat).value)
    ensures r.Ok? ==> forall o :: o in r.value ==> Qualifies(model, maxPrice)(o)
  {
    match Extract(doc, toFloat)
    case Err(e) => Err(e)
    case Ok(offers) => SelectPayments(offers, model, maxPrice)
  }

  /**
    * A record is returned when it has a payment, when its model equals the
    * requested one ignoring case (if a model is requested), and when the
    * payment does not exceed `maxPrice` (if one is given).
    */
  function Qualifies(model: Option<string>, maxPrice: Option<real>): Offer -> bool {
    (o: Offer) =>
      && o.monthlyPayment.Some?
      && (FiltersByModel(model) ==> o.model.Some? && Lower(o.model.value) == Lower(model.value))
      && (maxPrice.Some? ==> o.monthlyPayment.value <= maxPrice.value)
  }

  /**
    * The loop raises exactly when a model filter is active and some record
    * with a payment has no model (`None.lower()`), whatever its price; it
    * otherwise returns the qualifying records in their order.
    */
  lemma {:induction false} SelectPaymentsIsFilter(offers: seq<Offer>, model: Option<string>, maxPrice: Option<real>)
    ensures SelectPayments(offers, model, maxPrice).Err? <==>
      FiltersByModel(model) && exists o :: o in offers && o.monthlyPayment.Some? && o.model.None?
    ensures SelectPayments(offers, model, maxPrice).Err? ==> SelectPayments(offers, model, maxPrice).error == ModelIsNone
    ensures SelectPayments(offers, model, maxPrice).Ok? ==>
      SelectPayments(offers, model, maxPrice).value == Filter(offers, Qualifies(model, maxPrice))
  {
    if offers != [] {
      SelectPaymentsIsFilter(offers[1..], model, maxPrice);
      assert forall o :: o in offers <==> o == offers[0] || o in offers[1..];
    }
  }

  /**
    * What `get_available_payment_offers` returns is an order-preserving
    * part of `extract_offers`'s result holding exactly the qualifying
    * records: each has a payment, at most `maxPrice` when that is given,
    * and the requested model ignoring case when a model is requested.
    */
  lemma AvailablePaymentsSelects(doc: Document, toFloat: FloatConversion, model: Option<string>, maxPrice: Option<real>)
    requires AvailablePayments(doc, toFloat, model, maxPrice).Ok?
    ensures Extract(doc, toFloat).Ok?
    ensures var offers, rs := Extract(doc, toFloat).value, AvailablePayments(doc, toFloat, model, maxPrice).value;
      && IsSubsequence(rs, offers)
      && (forall o :: o in rs ==> o.monthlyPayment.Some?)
      && (forall o :: o in rs && maxPrice.Some? ==> o.monthlyPayment.value <= maxPrice.value)
      && (forall o :: o in rs && FiltersByModel(model) ==> o.model.Some? && Lower(o.model.value) == Lower(model.value))
      && (forall o :: o in offers && Qualifies(model, maxPrice)(o) ==> o in rs)
      && (forall o :: multiset(rs)[o] == if Qualifies(model, maxPrice)(o) then multiset(offers)[o] else 0)
  {
    var offers := Extract(doc, toFloat).value;
    SelectPaymentsIsFilter(offers, model, maxPrice);
    forall o ensures multiset(Filter(offers, Qualifies(model, maxPrice)))[o] ==
      if Qualifies(model, maxPrice)(o) then multiset(offers)[o] else 0
    {
      FilterMultiplicity(offers, Qualifies(model, maxPrice), o);
    }
  }

  /** The loop of `get_available_payment_offers`, with its `continue` guards. */
  method AvailablePaymentOffers(doc: Document, toFloat: FloatConversion, model: Option<string>, maxPrice: Option<real>)
    returns (r: Result<seq<Offer>, Error>)
    ensures r == AvailablePayments(doc, toFloat, model, maxPrice)
  {
    var offers :- ExtractOffers(doc, toFloat);
    var filtered: seq<Offer> := [];
    JoinEmpty(SelectPayments(offers, model, maxPrice));
    for i := 0 to |offers|
      invariant SelectPayments(offers, model, maxPrice) == Join(Ok(filtered), SelectPayments(offers[i..], model, maxPrice))
    {
      var offer := offers[i];
      ghost var rest := SelectPayments(offers[i + 1..], model, maxPrice);
      assert offers[i..][1..] == offers[i + 1..];
      JoinEmpty(rest);
      JoinAssociative(Ok(filtered), Ok([offer]), rest);
      var mp := offer.monthlyPayment;
      if mp.None? {
        continue;
      }
      if FiltersByModel(model) {
        if offer.model.None? {
          return Err(ModelIsNone);
        }
        if Lower(offer.model.value) != Lower(model.value) {
          continue;
        }
      }
      if maxPrice.Some? && mp.value > maxPrice.value {
        continue;
      }
      filtered := filtered + [offer];
    }
    JoinEmpty(Ok(filtered));
    r := Ok(filtered);
  }
}
