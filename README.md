# Hyundai offers agent, modelled in Dafny

The agent fetches the manufacturer's featured-offer document for a postal
code and flattens it into a list of offer records. The document nests
`data` entries, each with `years`, each year-group with a `modelYear` and
`vehicles`, each vehicle with `modelName`, `vehicleFuelType`,
`modelGroupCode` and a `cardOrder` object whose slots `lease1`, `lease2`,
`lowApr` and `savings` hold offer objects. Every slot that holds a
non-empty object becomes one record. The record's `type` is the slot's tag.
Model, fuel and group code come from the vehicle. The remaining fields come
from the offer, except that the offer's `modelYear` falls back to the
year-group's when the offer lacks the key. Three queries filter that list:
by type, by distinct model name, and by monthly payment.

This project models `extract_offers` and the three queries of
`HyundaiOffersAgent` as operations on an explicit document value:

- `offers.dfy` (module `Offers`): the document (`Document`, `Entry`,
  `YearGroup`, `Vehicle`, JSON `Value`), the flat record `Offer`, the errors
  the agent raises, and `Join`, which chains two steps that may raise.
- `extraction.dfy` (module `Extraction`): the specification `Extract`,
  built in two steps. `DocumentSlots` lists the truthy `cardOrder` slots in
  document order. `Records` turns each slot into a record with
  `MakeRecord` and stops at the first payment that `float(...)` rejects.
  The agent's nested loops are the methods `ExtractOffers`, `EntryOffers`,
  `YearOffers` and `VehicleOffers`, one per level of nesting, each proved
  to compute that specification. The lemmas state what the flattening
  guarantees.
- `queries.dfy` (module `Queries`): `OffersByType`, `ModelNames`
  (through `SortedModelNames`), and the loop `AvailablePaymentOffers`,
  proved against `AvailablePayments`.
- `text.dfy` (module `Text`): `str.lower()` on ASCII letters, Python's
  substring `in`, and Python's string order with a sorted insert.
- `seqs.dfy` (module `Seqs`): order-preserving `Filter` and `IsSubsequence`.
- `wrappers.dfy` (module `Wrappers`): `Option` and `Result`.

Python's `float(...)` is a parameter `toFloat: Value -> Option<real>` of
every operation. `None` stands for a conversion that raises.

The HTTP route in main.py:24 documents the argument of `get_offers_by_type`
as "Offer type: lease, finance, rebate". The code at hyundai_agent.py:49
tests whether the record's tag occurs inside the lowered argument. None of
the three documented words selects a record: "lease" is shorter than every
tag, and no tag occurs inside "finance" or "rebate". No argument at all can
return `lowApr` records, since a lowered string holds no capital `A`. The
model follows the code. `DocumentedArgumentsSelectNothing`,
`ShortArgumentSelectsNothing` and `LowAprNeverSelected` state these
consequences.

## Model

| member | source | states |
|---|---|---|
| `Extraction.ExtractOffers` | hyundai_agent.py:16-46 | the nested loops return exactly `Extract(doc)`: the records of the truthy slots in document order, or the first conversion error |
| `Extraction.EntryOffers` | hyundai_agent.py:20-21 | the loop over an entry's `years` (empty when the key is absent) returns exactly the records of that entry's slots, or the first error |
| `Extraction.YearOffers` | hyundai_agent.py:21-23 | the loop over a year-group's `vehicles` (empty when absent) returns exactly the records of that year-group's slots, or the first error |
| `Extraction.VehicleOffers` | hyundai_agent.py:24-45 | the loop over the tags `lease1, lease2, lowApr, savings` returns exactly the records of the vehicle's truthy slots in tag order, or the first error |
| `Extraction.TagSlots` | hyundai_agent.py:29-31 | every slot listed for a vehicle comes from the visited tags, holds that tag's non-empty `cardOrder` object, and carries the vehicle and the year-group's model year |
| `Extraction.VehicleSlots` | hyundai_agent.py:27-31 | every slot of a vehicle is a truthy slot under one of the four tags, of that vehicle, under its year-group's model year |
| `Extraction.VehiclesSlots` | hyundai_agent.py:23-31 | every slot of a vehicle list is a truthy slot of one of those vehicles |
| `Extraction.YearSlots` | hyundai_agent.py:22-31 | every slot of a year-group carries that year-group's `modelYear` and one of its vehicles |
| `Extraction.YearsSlots` | hyundai_agent.py:21-31 | every slot of a list of year-groups is a truthy tagged slot of a vehicle of one of those year-groups, carrying that year-group's `modelYear` |
| `Extraction.EntrySlots` | hyundai_agent.py:21-31 | every slot of an entry is a truthy tagged slot of a vehicle of one of the entry's year-groups, carrying that year-group's `modelYear` |
| `Extraction.EntriesSlots` | hyundai_agent.py:20-31 | every slot of a list of entries is a truthy tagged slot lying in one of those entries |
| `Extraction.DocumentSlots` | hyundai_agent.py:20-31 | every slot the document yields is a truthy `cardOrder` slot under one of the four tags, of a vehicle of a year-group of an entry of the document, carrying that year-group's `modelYear` |
| `Extraction.DocumentSlotsComplete` | hyundai_agent.py:20-31 | conversely, every truthy slot under one of the four tags of every vehicle of the document is one of its slots, so a successful extraction has a record of that type with that vehicle's model, fuel and group code |
| `Extraction.MakeRecord` | hyundai_agent.py:32-45 | a slot's record fails exactly when the offer has an `offerMonthlyPayment` that `float(...)` rejects, with that value as the error; otherwise its type is the tag, its model is the vehicle's, and its payment is None exactly when the key is absent |
| `Extraction.Records` | hyundai_agent.py:29-45 | converting a run of slots, when it succeeds, gives one record per slot, record k having slot k's tag as type |
| `Extraction.Extract` | hyundai_agent.py:16-46 | extraction succeeds exactly when every slot of the document converts, and then gives one record per slot |
| `Extraction.RecordsOk` | hyundai_agent.py:29-45 | conversion succeeds exactly when every slot converts, and then yields one record per slot, record k built from slot k |
| `Extraction.RecordsFirstError` | hyundai_agent.py:37 | a failed conversion reports the error of the first slot that fails |
| `Extraction.TagSlotsAreTruthyTags` | hyundai_agent.py:29-31 | the tags of a vehicle's slots are the visited tags whose slot is truthy, in visiting order |
| `Extraction.VehicleRecordTypes` | hyundai_agent.py:29-36 | a vehicle's records have as types exactly its truthy tags, in the order lease1, lease2, lowApr, savings |
| `Extraction.VehicleRecordPerTag` | hyundai_agent.py:29-36 | each tag is the type of exactly one of a vehicle's records when its slot is truthy, and of none otherwise |
| `Extraction.ExtractedRecord` | hyundai_agent.py:22-44 | record k comes from truthy slot k: type is the tag; model, fuel, groupCode are the vehicle's; modelYear is the offer's whenever it has the key (even null), else the year-group's; monthlyPayment is None exactly when `offerMonthlyPayment` is absent, else the converted value; other fields are the offer's |
| `Extraction.ExtractedTypesAreTags` | hyundai_agent.py:29-36 | every extracted record's type is one of `lease1`, `lease2`, `lowApr`, `savings` |
| `Extraction.ExtractFailsOnBadPayment` | hyundai_agent.py:37 | extraction raises exactly when some truthy slot has an unconvertible `offerMonthlyPayment`, and the error names the first such value: the whole extraction aborts instead of dropping one record |
| `Extraction.ExtractFollowsEntryOrder` | hyundai_agent.py:20 | extracting entries `a ++ b` gives the records of `a` followed by those of `b`, or the first error |
| `Extraction.MissingContainersContributeNothing` | hyundai_agent.py:20-31 | an absent `data`, `years`, `vehicles` or `cardOrder` yields no records and no error; a vehicle yields no slot exactly when none of its four tag slots is truthy, whatever other keys its `cardOrder` holds |
| `Extraction.IoniqExample` | hyundai_agent.py:16-46 | one entry, year-group "2024", vehicle "Ioniq 5" with a single `lease1` offer (payment "299", trim "SE") yields exactly one record with model year "2024", trim "SE", type lease1, payment 299 |
| `Text.Lower` | hyundai_agent.py:49 | the ASCII lowering keeps the length, lowers each ASCII capital and leaves no capital |
| `Text.Contains` | hyundai_agent.py:49 | the string `in` test: a prefix occurs, and nothing longer than the container does |
| `Text.ContainsAt` | hyundai_agent.py:49 | `t` occurs in `s` exactly when it starts some suffix of `s` |
| `Text.LexLess` | hyundai_agent.py:53 | the order `sorted` uses on strings: a proper prefix comes first, and no string is below itself |
| `Text.LowerNeverContainsUpper` | hyundai_agent.py:49 | a string holding a capital never occurs in a lowered string |
| `Text.Insert` | hyundai_agent.py:53 | inserting a name into a strictly ascending list keeps it strictly ascending and adds exactly that name |
| `Text.AscendingUnique` | hyundai_agent.py:53 | two strictly ascending lists with the same elements are equal, so `sorted(set(...))` is determined by the set |
| `Queries.OffersByType` | hyundai_agent.py:48-49 | `get_offers_by_type` fails exactly when extraction fails, with its error; otherwise every record it returns is an extracted record whose type occurs in the lowered argument |
| `Queries.OffersByTypeSelects` | hyundai_agent.py:48-49 | `get_offers_by_type` raises exactly when extraction does; otherwise it returns, in order, exactly the records whose type occurs in the lowered argument, each as many times as extraction produced it |
| `Queries.LowAprNeverSelected` | hyundai_agent.py:49 | no argument ever returns a `lowApr` record |
| `Queries.ShortArgumentSelectsNothing` | hyundai_agent.py:49 | an argument shorter than six characters, such as "lease", returns no records |
| `Queries.TagOccursInTag` | hyundai_agent.py:49 | among the four tags, only `t` itself occurs in the lowered `lease1`, `lease2` or `savings` |
| `Queries.ExactTagSelectsThatTag` | hyundai_agent.py:49 | the argument `lease1`, `lease2` or `savings` returns the same list as filtering the extracted records on type equality with it: same records, order and repetitions |
| `Queries.DocumentedArgumentsSelectNothing` | hyundai_agent.py:49 | each documented argument "lease", "finance" and "rebate" returns no record whenever extraction succeeds |
| `Queries.SortedModelNames` | hyundai_agent.py:51-53 | the names are strictly ascending and are exactly the models of the records that are neither None nor empty |
| `Queries.ModelNames` | hyundai_agent.py:51-53 | `get_all_model_names` fails exactly when extraction fails, with its error; otherwise it is strictly ascending and holds exactly the non-empty models of the extracted records |
| `Queries.ModelNamesAreSortedSet` | hyundai_agent.py:53 | any strictly ascending list of exactly the non-empty models equals the computed names: the result is `sorted(set(...))` |
| `Queries.PaymentCheck` | hyundai_agent.py:61-72 | one iteration keeps the record exactly when it qualifies (a payment, the requested model ignoring case when a model is given, at most `maxPrice` when given) and raises exactly when the record has a payment but no model under an active model filter |
| `Queries.SelectPayments` | hyundai_agent.py:60-73 | the loop's result, when it does not raise, is an order-preserving part of the records holding exactly the qualifying ones; it only ever raises the `None.lower()` error |
| `Queries.AvailablePayments` | hyundai_agent.py:55-73 | `get_available_payment_offers` fails with extraction's error when extraction fails; otherwise its records are an order-preserving part of the extracted ones, each qualifying |
| `Queries.SelectPaymentsIsFilter` | hyundai_agent.py:60-73 | the loop raises exactly when a model filter is active and some record with a payment has model None, whatever its price; otherwise it returns the qualifying records in order |
| `Queries.AvailablePaymentsSelects` | hyundai_agent.py:55-73 | the result is an order-preserving subsequence of the extracted records; each kept record has a payment, at most `maxPrice` when given, and the requested model ignoring case when a non-empty model is given; every qualifying record is kept as many times as extraction produced it, every other record never |
| `Queries.AvailablePaymentOffers` | hyundai_agent.py:55-73 | the loop with its `continue` guards returns exactly `AvailablePayments`: extraction's error, the `None.lower()` error, or the filtered records |

## Left out

- `HyundaiOffersAgent.fetch_raw_data` (hyundai_agent.py:9-14) is network I/O. Every operation takes the document as a parameter instead, and the HTTP and JSON-decoding errors are not modelled.
- Each query fetches the document again. The model gives every operation the same document value.
- `zip_code` and `URL` only configure the fetch. With no state left to change, the agent class becomes a module of functions and methods.
- main.py is not part of this model. It holds the FastAPI routes, query-parameter validation and the OpenAPI schema.
- `float(...)` is the parameter `toFloat`, and payments are exact reals. The model does not capture floating-point rounding or the behaviour of `mp > max_price` on NaN.
- Text.Lower: lowers only the ASCII capitals `A`-`Z`, while Python's `str.lower()` also maps other Unicode capitals, and for some of them changes the length (`"İ".lower()` has two code points). Keeping the length is a property of the ASCII model only.
- Documents on which Python raises a `TypeError` or `AttributeError` are not representable, so those raises are not modelled. They are a `data`, `years` or `vehicles` value that is null, a number, a boolean, a non-empty string or a non-empty object; a `cardOrder` value that is not an object; an entry, year-group or vehicle that is not an object; and a `cardOrder` slot holding a truthy non-object (a non-zero number, `true`, a non-empty string or list), on which `offer.get` raises.
- What Python treats like an absent key or a null slot is written as one. A `data`, `years` or `vehicles` value of `""`, `{}` or `[]` iterates zero times, which the model writes as an absent key. A `cardOrder` slot holding `0`, `false`, `""` or `[]` is skipped by `if offer:` like null, which the model writes as null.
- `modelName` is a string or None. A non-string model name, for which `sorted` or `.lower()` would raise or order differently, is not represented.
- `extract_offers` is one function with four nested loops. The model splits it into one method per level of nesting, with the same visiting order and the same early exit on a raised error.
