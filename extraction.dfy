/**
  * `extract_offers`: flattening the incentive document into offer records.
  *
  * The specification is in two steps. `DocumentSlots` lists, in document
  * order (entry, year-group, vehicle, then the tags `lease1`, `lease2`,
  * `lowApr`, `savings`), every `cardOrder` slot that holds a non-empty offer,
  * together with the year-group and vehicle it sits in. `Records` turns each
  * slot into one record with `MakeRecord`, stopping at the first payment that
  * `float(...)` rejects. The methods below are the agent's nested loops, one
  * method per level of nesting, each proved to compute that specification.
  */
module Extraction {
  import opened Wrappers
  import opened Offers
  import opened Seqs

  /**
    * Python's `float(...)`, applied to an `offerMonthlyPayment` value:
    * `None` when the conversion raises.
    */
  type FloatConversion = Value -> Option<real>

  const PaymentKey := "offerMonthlyPayment"

  /** A truthy `cardOrder` slot, with the year-group and vehicle it belongs to. */
  datatype Slot = Slot(yearModelYear: Value, vehicle: Vehicle, tag: string, offer: Fields)

  /** `vehicle.get("cardOrder", {})`. */
  function CardOrder(v: Vehicle): map<string, Option<Fields>> {
    if v.cardOrder.Some? then v.cardOrder.value else map[]
  }

  /** `card_order.get(tag)`. */
  function SlotValue(v: Vehicle, tag: string): Option<Fields> {
    var cardOrder := CardOrder(v);
    if tag in cardOrder then cardOrder[tag] else None
  }

  /** `if offer:` for a slot value: present, not null and not an empty object. */
  predicate Truthy(slot: Option<Fields>) {
    slot.Some? && slot.value != map[]
  }

  /** A slot that really is a truthy `cardOrder` slot of its vehicle under one of the four tags. */
  predicate IsTruthySlot(s: Slot) {
    s.tag in CardOrderTags && SlotValue(s.vehicle, s.tag) == Some(s.offer) && s.offer != map[]
  }

  function TagSlots(modelYear: Value, v: Vehicle, tags: seq<string>): (ss: seq<Slot>)
    ensures forall s :: s in ss ==>
      s.tag in tags && s.vehicle == v && s.yearModelYear == modelYear &&
      SlotValue(v, s.tag) == Some(s.offer) && s.offer != map[]
  {
    if tags == [] then []
    else
      var slot := SlotValue(v, tags[0]);
      (if Truthy(slot) then [Slot(modelYear, v, tags[0], slot.value)] else []) + TagSlots(modelYear, v, tags[1..])
  }

  function VehicleSlots(modelYear: Value, v: Vehicle): (ss: seq<Slot>)
    ensures forall s :: s in ss ==> IsTruthySlot(s) && s.vehicle == v && s.yearModelYear == modelYear
  {
    TagSlots(modelYear, v, CardOrderTags)
  }

  function VehiclesSlots(modelYear: Value, vs: seq<Vehicle>): (ss: seq<Slot>)
    ensures forall s :: s in ss ==> IsTruthySlot(s) && s.vehicle in vs && s.yearModelYear == modelYear
  {
    if vs == [] then [] else VehicleSlots(modelYear, vs[0]) + VehiclesSlots(modelYear, vs[1..])
  }

  /** `year.get("vehicles", [])`, each under `year.get("modelYear")`. */
  function YearSlots(y: YearGroup): (ss: seq<Slot>)
    ensures forall s :: s in ss ==> IsTruthySlot(s) && s.yearModelYear == y.modelYear && s.vehicle in OrEmpty(y.vehicles)
  {
    VehiclesSlots(y.modelYear, OrEmpty(y.vehicles))
  }

  /** The slot sits in one of the vehicles of year-group `y`, under `y`'s `modelYear`. */
  predicate InYearGroup(s: Slot, y: YearGroup) {
    s.yearModelYear == y.modelYear && s.vehicle in OrEmpty(y.vehicles)
  }

  /** The slot sits in one of the year-groups of entry `e`. */
  predicate InEntry(s: Slot, e: Entry) {
    exists y :: y in OrEmpty(e.years) && InYearGroup(s, y)
  }

  function YearsSlots(ys: seq<YearGroup>): (ss: seq<Slot>)
    ensures forall s :: s in ss ==> IsTruthySlot(s) && exists y :: y in ys && InYearGroup(s, y)
  {
    if ys == [] then []
    else
      assert forall s :: s in YearSlots(ys[0]) ==> InYearGroup(s, ys[0]);
      assert forall y :: y in ys[1..] ==> y in ys;
      YearSlots(ys[0]) + YearsSlots(ys[1..])
  }

  /** `entry.get("years", [])`. */
  function EntrySlots(e: Entry): (ss: seq<Slot>)
    ensures forall s :: s in ss ==> IsTruthySlot(s) && InEntry(s, e)
  {
    YearsSlots(OrEmpty(e.years))
  }

  function EntriesSlots(es: seq<Entry>): (ss: seq<Slot>)
    ensures forall s :: s in ss ==> IsTruthySlot(s) && exists e :: e in es && InEntry(s, e)
  {
    if es == [] then [] else EntrySlots(es[0]) + EntriesSlots(es[1..])
  }

  /** `raw.get("data", [])`. */
  function DocumentSlots(doc: Document): (ss: seq<Slot>)
    ensures forall s :: s in ss ==> IsTruthySlot(s) && exists e :: e in OrEmpty(doc.data) && InEntry(s, e)
  {
    EntriesSlots(OrEmpty(doc.data))
  }

  /** The dictionary the agent appends for one truthy slot, or the error `float(...)` raises. */
  function MakeRecord(s: Slot, toFloat: FloatConversion): (r: Result<Offer, Error>)
    ensures r.Err? <==> PaymentKey in s.offer && toFloat(s.offer[PaymentKey]).None?
    ensures r.Err? ==> r.error == NotANumber(s.offer[PaymentKey])
    ensures r.Ok? ==> r.value.offerType == s.tag && r.value.model == s.vehicle.modelName
    ensures r.Ok? ==> (r.value.monthlyPayment.None? <==> PaymentKey !in s.offer)
  {
    if PaymentKey in s.offer && toFloat(s.offer[PaymentKey]).None? then
      Err(NotANumber(s.offer[PaymentKey]))
    else
      Ok(Offer(
        model := s.vehicle.modelName,
        modelYear := if "modelYear" in s.offer then s.offer["modelYear"] else s.yearModelYear,
        trim := Get(s.offer, "trimName"),
        offerType := s.tag,
        monthlyPayment := if PaymentKey in s.offer then toFloat(s.offer[PaymentKey]) else None,
        term := Get(s.offer, "term"),
        apr := Get(s.offer, "apr"),
        price := Get(s.offer, "price"),
        description := Get(s.offer, "shortDescription"),
        disclaimer := Get(s.offer, "disclaimer"),
        fuel := s.vehicle.fuelType,
        groupCode := s.vehicle.groupCode))
  }

  function RecordOf(s: Slot, toFloat: FloatConversion): Result<seq<Offer>, Error> {
    match MakeRecord(s, toFloat)
    case Err(e) => Err(e)
    case Ok(o) => Ok([o])
  }

  /** The records of `ss` in order, or the error of the first slot that has none. */
  function Records(ss: seq<Slot>, toFloat: FloatConversion): (r: Result<seq<Offer>, Error>)
    ensures r.Ok? ==> |r.value| == |ss|
    ensures r.Ok? ==> forall k :: 0 <= k < |ss| ==> r.value[k].offerType == ss[k].tag
  {
    if ss == [] then Ok([])
    else
      var rest := Records(ss[1..], toFloat);
      assert forall k :: 1 <= k < |ss| ==> ss[k] == ss[1..][k - 1];
      Join(RecordOf(ss[0], toFloat), rest)
  }

  /** What `extract_offers` returns, or raises, for the document `doc`. */
  function Extract(doc: Document, toFloat: FloatConversion): (r: Result<seq<Offer>, Error>)
    ensures r.Ok? <==> forall s :: s in DocumentSlots(doc) ==> MakeRecord(s, toFloat).Ok?
    ensures r.Ok? ==> |r.value| == |DocumentSlots(doc)|
  {
    RecordsOk(DocumentSlots(doc), toFloat);
    Records(DocumentSlots(doc), toFloat)
  }

  /** Converting two runs of slots one after the other is converting their concatenation. */
  lemma {:induction false} RecordsAppend(a: seq<Slot>, b: seq<Slot>, toFloat: FloatConversion)
    ensures Records(a + b, toFloat) == Join(Records(a, toFloat), Records(b, toFloat))
  {
    if a == [] {
      assert a + b == b;
      JoinEmpty(Records(b, toFloat));
    } else {
      assert (a + b)[0] == a[0] && (a + b)[1..] == a[1..] + b;
      RecordsAppend(a[1..], b, toFloat);
      JoinAssociative(RecordOf(a[0], toFloat), Records(a[1..], toFloat), Records(b, toFloat));
    }
  }

  /**
    * Conversion succeeds exactly when every slot converts, and then it gives
    * one record per slot, record k being slot k's.
    */
  lemma {:induction false} RecordsOk(ss: seq<Slot>, toFloat: FloatConversion)
    ensures Records(ss, toFloat).Ok? <==> forall k :: 0 <= k < |ss| ==> MakeRecord(ss[k], toFloat).Ok?
    ensures Records(ss, toFloat).Ok? ==>
      |Records(ss, toFloat).value| == |ss| &&
      forall k :: 0 <= k < |ss| ==> MakeRecord(ss[k], toFloat) == Ok(Records(ss, toFloat).value[k])
  {
    if ss != [] {
      RecordsOk(ss[1..], toFloat);
      assert forall k :: 1 <= k < |ss| ==> ss[k] == ss[1..][k - 1];
    }
  }

  /** A failed conversion reports the error of the first slot that fails. */
  lemma {:induction false} RecordsFirstError(ss: seq<Slot>, toFloat: FloatConversion)
    requires Records(ss, toFloat).Err?
    ensures exists k :: 0 <= k < |ss| && MakeRecord(ss[k], toFloat) == Err(Records(ss, toFloat).error) &&
                        (forall j :: 0 <= j < k ==> MakeRecord(ss[j], toFloat).Ok?)
  {
    if MakeRecord(ss[0], toFloat).Ok? {
      RecordsFirstError(ss[1..], toFloat);
      var k :| 0 <= k < |ss[1..]| && MakeRecord(ss[1..][k], toFloat) == Err(Records(ss[1..], toFloat).error) &&
               (forall j :: 0 <= j < k ==> MakeRecord(ss[1..][j], toFloat).Ok?);
      assert forall j :: 1 <= j < k + 1 ==> ss[j] == ss[1..][j - 1];
      assert MakeRecord(ss[k + 1], toFloat) == Err(Records(ss, toFloat).error);
    } else {
      assert MakeRecord(ss[0], toFloat) == Err(Records(ss, toFloat).error);
    }
  }

  /** The innermost loop of `extract_offers`: the four `cardOrder` slots of one vehicle. */
  method VehicleOffers(modelYear: Value, vehicle: Vehicle, toFloat: FloatConversion) returns (r: Result<seq<Offer>, Error>)
    ensures r == Records(VehicleSlots(modelYear, vehicle), toFloat)
  {
    var cardOrder := CardOrder(vehicle);
    var offers: seq<Offer> := [];
    JoinEmpty(Records(VehicleSlots(modelYear, vehicle), toFloat));
    for k := 0 to |CardOrderTags|
      invariant Records(VehicleSlots(modelYear, vehicle), toFloat) ==
                Join(Ok(offers), Records(TagSlots(modelYear, vehicle, CardOrderTags[k..]), toFloat))
    {
      var key := CardOrderTags[k];
      var offer := if key in cardOrder then cardOrder[key] else None;
      ghost var here := if Truthy(offer) then [Slot(modelYear, vehicle, key, offer.value)] else [];
      ghost var rest := TagSlots(modelYear, vehicle, CardOrderTags[k + 1..]);
      assert CardOrderTags[k..][1..] == CardOrderTags[k + 1..];
      assert TagSlots(modelYear, vehicle, CardOrderTags[k..]) == here + rest;
      RecordsAppend(here, rest, toFloat);
      JoinAssociative(Ok(offers), Records(here, toFloat), Records(rest, toFloat));
      if Truthy(offer) {
        assert here[1..] == [];
        JoinEmpty(RecordOf(here[0], toFloat));
        var record :- MakeRecord(Slot(modelYear, vehicle, key, offer.value), toFloat);
        offers := offers + [record];
      } else {
        JoinEmpty(Ok(offers));
      }
    }
    JoinEmpty(Ok(offers));
    r := Ok(offers);
  }

  /** The loop over `year.get("vehicles", [])`. */
  method YearOffers(year: YearGroup, toFloat: FloatConversion) returns (r: Result<seq<Offer>, Error>)
    ensures r == Records(YearSlots(year), toFloat)
  {
    var modelYear := year.modelYear;
    var vehicles := OrEmpty(year.vehicles);
    var offers: seq<Offer> := [];
    JoinEmpty(Records(YearSlots(year), toFloat));
    for i := 0 to |vehicles|
      invariant Records(YearSlots(year), toFloat) ==
                Join(Ok(offers), Records(VehiclesSlots(modelYear, vehicles[i..]), toFloat))
    {
      ghost var here := VehicleSlots(modelYear, vehicles[i]);
      ghost var rest := VehiclesSlots(modelYear, vehicles[i + 1..]);
      assert vehicles[i..][1..] == vehicles[i + 1..];
      RecordsAppend(here, rest, toFloat);
      JoinAssociative(Ok(offers), Records(here, toFloat), Records(rest, toFloat));
      var part :- VehicleOffers(modelYear, vehicles[i], toFloat);
      offers := offers + part;
    }
    JoinEmpty(Ok(offers));
    r := Ok(offers);
  }

  /** The loop over `entry.get("years", [])`. */
  method EntryOffers(entry: Entry, toFloat: FloatConversion) returns (r: Result<seq<Offer>, Error>)
    ensures r == Records(EntrySlots(entry), toFloat)
  {
    var years := OrEmpty(entry.years);
    var offers: seq<Offer> := [];
    JoinEmpty(Records(EntrySlots(entry), toFloat));
    for i := 0 to |years|
      invariant Records(EntrySlots(entry), toFloat) == Join(Ok(offers), Records(YearsSlots(years[i..]), toFloat))
    {
      ghost var here := YearSlots(years[i]);
      ghost var rest := YearsSlots(years[i + 1..]);
      assert years[i..][1..] == years[i + 1..];
      RecordsAppend(here, rest, toFloat);
      JoinAssociative(Ok(offers), Records(here, toFloat), Records(rest, toFloat));
      var part :- YearOffers(years[i], toFloat);
      offers := offers + part;
    }
    JoinEmpty(Ok(offers));
    r := Ok(offers);
  }

  /** `extract_offers`, given the document `fetch_raw_data` would have returned. */
  method ExtractOffers(doc: Document, toFloat: FloatConversion) returns (r: Result<seq<Offer>, Error>)
    ensures r == Extract(doc, toFloat)
  {
    var entries := OrEmpty(doc.data);
    var offers: seq<Offer> := [];
    JoinEmpty(Extract(doc, toFloat));
    for i := 0 to |entries|
      invariant Extract(doc, toFloat) == Join(Ok(offers), Records(EntriesSlots(entries[i..]), toFloat))
    {
      ghost var here := EntrySlots(entries[i]);
      ghost var rest := EntriesSlots(entries[i + 1..]);
      assert entries[i..][1..] == entries[i + 1..];
      RecordsAppend(here, rest, toFloat);
      JoinAssociative(Ok(offers), Records(here, toFloat), Records(rest, toFloat));
      var part :- EntryOffers(entries[i], toFloat);
      offers := offers + part;
    }
    JoinEmpty(Ok(offers));
    r := Ok(offers);
  }

  /** The tags of a run of slots, in order. */
  function SlotTags(ss: seq<Slot>): seq<string> {
    seq(|ss|, i requires 0 <= i < |ss| => ss[i].tag)
  }

  /** The `type` fields of a run of records, in order. */
  function OfferTypes(rs: seq<Offer>): seq<string> {
    seq(|rs|, i requires 0 <= i < |rs| => rs[i].offerType)
  }

  /** The test `if offer:` applied to the slot of `tag` in `v`'s `cardOrder`. */
  function HasOffer(v: Vehicle): string -> bool {
    tag => Truthy(SlotValue(v, tag))
  }

  lemma {:induction false} TagSlotsAreTruthyTags(modelYear: Value, v: Vehicle, tags: seq<string>)
    ensures SlotTags(TagSlots(modelYear, v, tags)) == Filter(tags, HasOffer(v))
  {
    if tags != [] {
      TagSlotsAreTruthyTags(modelYear, v, tags[1..]);
    }
  }

  /**
    * One vehicle yields one record per truthy `cardOrder` slot and no other:
    * the records' types are the truthy tags, in the order lease1, lease2,
    * lowApr, savings.
    */
  lemma VehicleRecordTypes(modelYear: Value, v: Vehicle, toFloat: FloatConversion, rs: seq<Offer>)
    requires Records(VehicleSlots(modelYear, v), toFloat) == Ok(rs)
    ensures OfferTypes(rs) == Filter(CardOrderTags, HasOffer(v))
  {
    var ss := VehicleSlots(modelYear, v);
    RecordsOk(ss, toFloat);
    TagSlotsAreTruthyTags(modelYear, v, CardOrderTags);
    assert OfferTypes(rs) == SlotTags(ss);
  }

  /** Each tag appears among a vehicle's records once if its slot is truthy, and never otherwise. */
  lemma VehicleRecordPerTag(modelYear: Value, v: Vehicle, toFloat: FloatConversion, rs: seq<Offer>, t: string)
    requires Records(VehicleSlots(modelYear, v), toFloat) == Ok(rs)
    ensures multiset(OfferTypes(rs))[t] == if t in CardOrderTags && Truthy(SlotValue(v, t)) then 1 else 0
  {
    VehicleRecordTypes(modelYear, v, toFloat, rs);
    FilterDistinctCount(CardOrderTags, HasOffer(v), t);
  }

  /**
    * Record k of a successful extraction is built from truthy slot k: its
    * type is the slot's tag; model, fuel and groupCode are the vehicle's;
    * modelYear is the offer's own whenever the offer has that key, even
    * when it is null, and the year-group's otherwise; monthlyPayment is None
    * exactly when the offer has no `offerMonthlyPayment`, and the converted
    * number otherwise; the remaining fields are the offer's.
    */
  lemma ExtractedRecord(doc: Document, toFloat: FloatConversion, k: int)
    requires Extract(doc, toFloat).Ok?
    requires 0 <= k < |DocumentSlots(doc)|
    ensures |Extract(doc, toFloat).value| == |DocumentSlots(doc)|
    ensures var s, o := DocumentSlots(doc)[k], Extract(doc, toFloat).value[k];
      && IsTruthySlot(s)
      && o.offerType == s.tag && o.offerType in CardOrderTags
      && o.model == s.vehicle.modelName && o.fuel == s.vehicle.fuelType && o.groupCode == s.vehicle.groupCode
      && o.modelYear == (if "modelYear" in s.offer then s.offer["modelYear"] else s.yearModelYear)
      && (o.monthlyPayment.None? <==> PaymentKey !in s.offer)
      && (PaymentKey in s.offer ==> o.monthlyPayment == toFloat(s.offer[PaymentKey]))
      && o.trim == Get(s.offer, "trimName") && o.term == Get(s.offer, "term") && o.apr == Get(s.offer, "apr")
      && o.price == Get(s.offer, "price") && o.description == Get(s.offer, "shortDescription")
      && o.disclaimer == Get(s.offer, "disclaimer")
  {
    var ss := DocumentSlots(doc);
    RecordsOk(ss, toFloat);
    assert ss[k] in ss;
  }

  /** Every record a successful extraction returns has one of the four tags as its type. */
  lemma ExtractedTypesAreTags(doc: Document, toFloat: FloatConversion)
    requires Extract(doc, toFloat).Ok?
    ensures forall o :: o in Extract(doc, toFloat).value ==> o.offerType in CardOrderTags
  {
    var rs := Extract(doc, toFloat).value;
    RecordsOk(DocumentSlots(doc), toFloat);
    forall o | o in rs ensures o.offerType in CardOrderTags {
      var k :| 0 <= k < |rs| && rs[k] == o;
      ExtractedRecord(doc, toFloat, k);
    }
  }

  /**
    * Extraction fails exactly when some truthy slot holds an
    * `offerMonthlyPayment` that `float(...)` rejects, and the error names
    * the first such value in document order: one bad payment aborts the
    * whole extraction instead of dropping its record.
    */
  lemma ExtractFailsOnBadPayment(doc: Document, toFloat: FloatConversion)
    ensures var ss := DocumentSlots(doc);
      Extract(doc, toFloat).Err? <==>
      exists k :: 0 <= k < |ss| && PaymentKey in ss[k].offer && toFloat(ss[k].offer[PaymentKey]).None?
    ensures var ss := DocumentSlots(doc);
      Extract(doc, toFloat).Err? ==>
      exists k :: 0 <= k < |ss| && PaymentKey in ss[k].offer && toFloat(ss[k].offer[PaymentKey]).None? &&
                  Extract(doc, toFloat).error == NotANumber(ss[k].offer[PaymentKey]) &&
                  (forall j :: 0 <= j < k ==> PaymentKey !in ss[j].offer || toFloat(ss[j].offer[PaymentKey]).Some?)
  {
    var ss := DocumentSlots(doc);
    RecordsOk(ss, toFloat);
    if Extract(doc, toFloat).Err? {
      RecordsFirstError(ss, toFloat);
    }
  }

  lemma {:induction false} TagSlotsComplete(modelYear: Value, v: Vehicle, tags: seq<string>, t: string)
    requires t in tags && Truthy(SlotValue(v, t))
    ensures Slot(modelYear, v, t, SlotValue(v, t).value) in TagSlots(modelYear, v, tags)
  {
    if tags[0] != t {
      TagSlotsComplete(modelYear, v, tags[1..], t);
    }
  }

  lemma {:induction false} VehiclesSlotsComplete(modelYear: Value, vs: seq<Vehicle>, v: Vehicle, t: string)
    requires v in vs && t in CardOrderTags && Truthy(SlotValue(v, t))
    ensures Slot(modelYear, v, t, SlotValue(v, t).value) in VehiclesSlots(modelYear, vs)
  {
    if vs[0] == v {
      TagSlotsComplete(modelYear, v, CardOrderTags, t);
    } else {
      VehiclesSlotsComplete(modelYear, vs[1..], v, t);
    }
  }

  lemma {:induction false} YearsSlotsComplete(ys: seq<YearGroup>, y: YearGroup, v: Vehicle, t: string)
    requires y in ys && v in OrEmpty(y.vehicles) && t in CardOrderTags && Truthy(SlotValue(v, t))
    ensures Slot(y.modelYear, v, t, SlotValue(v, t).value) in YearsSlots(ys)
  {
    if ys[0] == y {
      VehiclesSlotsComplete(y.modelYear, OrEmpty(y.vehicles), v, t);
    } else {
      YearsSlotsComplete(ys[1..], y, v, t);
    }
  }

  lemma {:induction false} EntriesSlotsComplete(es: seq<Entry>, e: Entry, y: YearGroup, v: Vehicle, t: string)
    requires e in es && y in OrEmpty(e.years) && v in OrEmpty(y.vehicles)
    requires t in CardOrderTags && Truthy(SlotValue(v, t))
    ensures Slot(y.modelYear, v, t, SlotValue(v, t).value) in EntriesSlots(es)
  {
    if es[0] == e {
      YearsSlotsComplete(OrEmpty(e.years), y, v, t);
    } else {
      EntriesSlotsComplete(es[1..], e, y, v, t);
    }
  }

  /**
    * No offer is lost: every truthy `cardOrder` slot under one of the four
    * tags, of every vehicle of every year-group of every entry, is a slot
    * of the document, so a successful extraction has a record of that type
    * for that vehicle.
    */
  lemma DocumentSlotsComplete(doc: Document, toFloat: FloatConversion, e: Entry, y: YearGroup, v: Vehicle, t: string)
    requires e in OrEmpty(doc.data) && y in OrEmpty(e.years) && v in OrEmpty(y.vehicles)
    requires t in CardOrderTags && Truthy(SlotValue(v, t))
    ensures Slot(y.modelYear, v, t, SlotValue(v, t).value) in DocumentSlots(doc)
    ensures Extract(doc, toFloat).Ok? ==>
      exists o :: o in Extract(doc, toFloat).value && o.offerType == t && o.model == v.modelName &&
                  o.fuel == v.fuelType && o.groupCode == v.groupCode
  {
    var ss := DocumentSlots(doc);
    EntriesSlotsComplete(OrEmpty(doc.data), e, y, v, t);
    if Extract(doc, toFloat).Ok? {
      var k :| 0 <= k < |ss| && ss[k] == Slot(y.modelYear, v, t, SlotValue(v, t).value);
      ExtractedRecord(doc, toFloat, k);
      assert Extract(doc, toFloat).value[k] in Extract(doc, toFloat).value;
    }
  }

  lemma {:induction false} EntriesSlotsAppend(a: seq<Entry>, b: seq<Entry>)
    ensures EntriesSlots(a + b) == EntriesSlots(a) + EntriesSlots(b)
  {
    if a == [] {
      assert a + b == b;
    } else {
      assert (a + b)[0] == a[0] && (a + b)[1..] == a[1..] + b;
      EntriesSlotsAppend(a[1..], b);
    }
  }

  /**
    * Output follows document order: extracting from the entries `a` followed
    * by `b` gives the records of `a` followed by those of `b` (or the first
    * error).
    */
  lemma ExtractFollowsEntryOrder(a: seq<Entry>, b: seq<Entry>, toFloat: FloatConversion)
    ensures Extract(Document(Some(a + b)), toFloat) ==
            Join(Extract(Document(Some(a)), toFloat), Extract(Document(Some(b)), toFloat))
  {
    EntriesSlotsAppend(a, b);
    RecordsAppend(EntriesSlots(a), EntriesSlots(b), toFloat);
  }

  /**
    * A missing `data`, `years`, `vehicles` or `cardOrder` key contributes no
    * record and raises nothing; so does a `cardOrder` whose slots are all
    * absent, null or empty.
    */
  lemma MissingContainersContributeNothing(doc: Document, entry: Entry, year: YearGroup, v: Vehicle, modelYear: Value, toFloat: FloatConversion)
    ensures doc.data.None? ==> Extract(doc, toFloat) == Ok([])
    ensures entry.years.None? ==> EntrySlots(entry) == []
    ensures year.vehicles.None? ==> YearSlots(year) == []
    ensures VehicleSlots(modelYear, v) == [] <==> forall t :: t in CardOrderTags ==> !Truthy(SlotValue(v, t))
    ensures v.cardOrder.None? ==> VehicleSlots(modelYear, v) == []
  {
    TagSlotsAreTruthyTags(modelYear, v, CardOrderTags);
    FilterEmpty(CardOrderTags, HasOffer(v));
    assert |SlotTags(VehicleSlots(modelYear, v))| == |VehicleSlots(modelYear, v)|;
  }

  /** The `lease1` offer of the example below: payment "299", trim "SE". */
  function IoniqOffer(): Fields {
    map["offerMonthlyPayment" := Str("299"), "trimName" := Str("SE")]
  }

  function IoniqVehicle(): Vehicle {
    Vehicle(Some("Ioniq 5"), Null, Null, Some(map["lease1" := Some(IoniqOffer())]))
  }

  /** One entry, one year-group 2024, one Ioniq 5 with a single `lease1` offer. */
  function IoniqDocument(): Document {
    Document(Some([Entry(Some([YearGroup(Str("2024"), Some([IoniqVehicle()]))]))]))
  }

  lemma IoniqVehicleSlots()
    ensures VehicleSlots(Str("2024"), IoniqVehicle()) == [Slot(Str("2024"), IoniqVehicle(), "lease1", IoniqOffer())]
  {
    var v, tags := IoniqVehicle(), CardOrderTags;
    assert tags[1..][1..] == tags[2..] && tags[2..][1..] == tags[3..] && tags[3..][1..] == [];
    assert TagSlots(Str("2024"), v, tags[3..]) == [];
    assert TagSlots(Str("2024"), v, tags[2..]) == [];
    assert TagSlots(Str("2024"), v, tags[1..]) == [];
    assert "trimName" in IoniqOffer();
    assert Truthy(SlotValue(v, tags[0]));
  }

  lemma IoniqDocumentSlots()
    ensures DocumentSlots(IoniqDocument()) == [Slot(Str("2024"), IoniqVehicle(), "lease1", IoniqOffer())]
  {
    var doc := IoniqDocument();
    var y := doc.data.value[0].years.value[0];
    IoniqVehicleSlots();
    assert y.vehicles.value[1..] == [] && doc.data.value[0].years.value[1..] == [] && doc.data.value[1..] == [];
    assert YearSlots(y) == VehicleSlots(Str("2024"), IoniqVehicle());
  }

  /** The record the agent builds from the `lease1` slot of the example. */
  lemma IoniqRecord(toFloat: FloatConversion)
    requires toFloat(Str("299")) == Some(299.0)
    ensures MakeRecord(Slot(Str("2024"), IoniqVehicle(), "lease1", IoniqOffer()), toFloat) ==
      Ok(Offer(Some("Ioniq 5"), Str("2024"), Str("SE"), "lease1", Some(299.0), Null, Null, Null, Null, Null, Null, Null))
  {
    assert IoniqOffer()[PaymentKey] == Str("299") && "modelYear" !in IoniqOffer();
    assert "term" !in IoniqOffer() && "apr" !in IoniqOffer() && "price" !in IoniqOffer();
    assert "shortDescription" !in IoniqOffer() && "disclaimer" !in IoniqOffer();
  }

  /**
    * The document above yields exactly one record: model "Ioniq 5", model
    * year "2024" from the year-group, trim "SE", type lease1 and a monthly
    * payment of 299.
    */
  lemma IoniqExample(toFloat: FloatConversion)
    requires toFloat(Str("299")) == Some(299.0)
    ensures Extract(IoniqDocument(), toFloat) ==
      Ok([Offer(Some("Ioniq 5"), Str("2024"), Str("SE"), "lease1", Some(299.0), Null, Null, Null, Null, Null, Null, Null)])
  {
    var slot := Slot(Str("2024"), IoniqVehicle(), "lease1", IoniqOffer());
    IoniqDocumentSlots();
    IoniqRecord(toFloat);
    assert [slot][1..] == [];
    JoinEmpty(RecordOf(slot, toFloat));
  }
}
