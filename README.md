# Ship registry: validation, rating, identifiers and filters

This project models the service layer of a small ship registry:

- the **filter fragments** of the list query (`ShipSpecificationsFilters`);
- the **registry service** (`ShipServiceImp`), which covers:
  - field validation;
  - the derived rating;
  - parsing of record identifiers;
  - the create / get / update / delete / count operations over a store of records.

Modules:

- `Wrappers` (`wrappers.dfy`): `Option`, which stands for a Java `null`, and `Result`.
- `Ships` (`ships.dfy`): the `Ship` record as stored and the `ShipData` payload as a caller sends it. Every payload field is optional. A production date is an instant in epoch milliseconds. `YearOf` gives the Gregorian year (UTC) of an instant.
- `ShipFilters` (`ship_filters.dfy`): a `Filter` datatype. `NoConstraint` stands for the `null` predicate a filter returns when its criterion is absent. The other constructors are concrete tests. `Matches(f, ship)` is their meaning. `Combine` and `AllOf` are the AND-composition, in which `NoConstraint` is the identity.
- `ShipService` (`ship_service.dfy`):
  - the checks and the rating, as functions returning `Outcome`/`Result`;
  - the identifier parser;
  - the class `ShipRegistry`. It holds the store as a `map<int, Ship>` and an identifier counter, and its methods change that map as the source changes its repository.

Errors come in two kinds. `BadRequest` carries either `MissingRequiredField` or `IncorrectData(param)`, where `param` is the name the source reports. `NotFound` is the other kind.

Speed and rating are exact `real`s. A payload speed is a `Double`, which can also be `NaN`. The rating is `80 · speed · k / (3019 − year + 1)` rounded half-up to two decimals, with k = 0.5 for a used ship and 1.0 otherwise. The model states it as "the multiple of 0.01 nearest the raw value, ties away from zero". It proves that this multiple is unique and that it lies in [0, 79.2] for every accepted input.

Validation is not a set of independent checks. It stops at the first out-of-range field, in the order name, planet, speed, crew size, production date, and reports only that field. `CheckShipParams` states it that way.

## Model

| member | source | states |
|---|---|---|
| `ShipService.CheckShipParams` | src/main/java/com/space/service/ShipServiceImp.java:76-109 | passes exactly when every present field is in range (name and planet length 1..49, speed a number in [0.01, 0.99], crew 1..9999, production year 2800..3019). Absent fields are skipped. Otherwise it fails with the label of the first out-of-range field in the order name, planet, speed, crew, production date |
| `ShipService.FirstFailureUnique` | src/main/java/com/space/service/ShipServiceImp.java:77-108 | at most one field is the first to fail, so the reported field is determined by the payload |
| `ShipService.RoundHalfUp2` | src/main/java/com/space/service/ShipServiceImp.java:118-119 | the result is a whole number of hundredths within half a hundredth of the input. Ties are rounded away from zero (HALF_UP) |
| `ShipService.RoundHalfUpUnique` | src/main/java/com/space/service/ShipServiceImp.java:119 | only one multiple of 0.01 satisfies the HALF_UP interval, so the rounding is fully determined |
| `ShipService.RoundHalfUpUniqueBelowZero` | src/main/java/com/space/service/ShipServiceImp.java:119 | only one multiple of 0.01 lies in the interval used below zero, so rounding is determined for negative values too |
| `ShipService.RoundHalfUpMonotonic` | src/main/java/com/space/service/ShipServiceImp.java:119 | rounding keeps the order of non-negative values |
| `ShipService.CalculateRating` | src/main/java/com/space/service/ShipServiceImp.java:111-120 | the rating is the HALF_UP two-decimal rounding of 80·speed·k/(3019 − year + 1), with k = 0.5 if used and 1.0 otherwise |
| `ShipService.RatingBounds` | src/main/java/com/space/service/ShipServiceImp.java:111-120 | for accepted speed and year the rating lies in [0, 79.2] |
| `ShipService.UsedRatesNoHigher` | src/main/java/com/space/service/ShipServiceImp.java:113 | a used ship never rates higher than the same ship unused |
| `ShipService.RatingExamples` | src/main/java/com/space/service/ShipServiceImp.java:111-120 | speed 0.5, unused, year 3019 rates 40.0. Speed 0.99, used, year 2800 rates 0.18 |
| `ShipService.ParseLong` | src/main/java/com/space/service/ShipServiceImp.java:137 | a parsed value lies in the 64-bit signed range. Only an optional sign followed by at least one ASCII digit parses, and the value is the numeral's, negated after "-". Conversely every such text whose value is in range parses, leading zeros included |
| `ShipService.DecimalReadsBack` | src/main/java/com/space/service/ShipServiceImp.java:137 | the decimal numeral of n is a non-empty digit string whose value is n. It starts with '0' only for n = 0 |
| `ShipService.ParseLongDecimal` | src/main/java/com/space/service/ShipServiceImp.java:137 | parsing the decimal numeral of any n in [0, 2^63 − 1] gives n back |
| `ShipService.CheckAndParseIdAsWritten` | src/main/java/com/space/service/ShipServiceImp.java:132-141 | "Incorrect ID" for an absent id, an id starting with "-", or the literal "0". Every other id is accepted as its parsed value when it parses, and is "ID isn't a number" when it does not. Any accepted id lies in [0, 2^63 − 1] |
| `ShipService.AsWrittenAcceptsZeroId` | src/main/java/com/space/service/ShipServiceImp.java:134-137 | as written, "00" gets through as the identifier 0 |
| `ShipService.CheckAndParseId` | src/main/java/com/space/service/ShipServiceImp.java:132-141 | every accepted id is the parsed value and positive. Every failure is a bad request. Failures of the as-written check are kept, a parsed 0 is refused as "Incorrect ID", and every other success of the as-written check is returned unchanged |
| `ShipService.IdRoundTrip` | src/main/java/com/space/service/ShipServiceImp.java:132-141 | every id in [1, 2^63 − 1], written in decimal, is accepted as itself |
| `ShipService.IdSignAndPadding` | src/main/java/com/space/service/ShipServiceImp.java:137 | "+5" is accepted as 5 and "007" as 7 |
| `ShipService.IdRejections` | src/main/java/com/space/service/ShipServiceImp.java:134-139 | an absent id, "0", "-5" and "00" are "Incorrect ID". "abc" and "" are "ID isn't a number" |
| `ShipService.StoredRecordCount` | src/main/java/com/space/service/ShipServiceImp.java:48-51 | a store keyed by each record's own id holds as many distinct records as keys |
| `ShipService.ShipRegistry.Count` | src/main/java/com/space/service/ShipServiceImp.java:48-51 | the count equals the number of records the unfiltered list returns |
| `ShipService.ShipRegistry.Get` | src/main/java/com/space/service/ShipServiceImp.java:122-130 | a bad id gives the (corrected) id check's bad request. An id that check accepts gives NotFound exactly when no record has it, and succeeds exactly when a record has it, returning that stored record |
| `ShipService.ShipRegistry.GetOnZeroNumeral` | src/main/java/com/space/service/ShipServiceImp.java:124-128 | an id the as-written check reads as 0 is refused as "Incorrect ID", and no record has the identifier 0 (so the source's lookup reports not found there) |
| `ShipService.ShipRegistry.GetFindsStored` | src/main/java/com/space/service/ShipServiceImp.java:122-141 | every stored record is found under the decimal numeral of its id |
| `ShipService.ShipRegistry.StoredRatingBounds` | src/main/java/com/space/service/ShipServiceImp.java:70-71 | every stored rating lies in [0, 79.2] |
| `ShipService.ShipRegistry.Create` | src/main/java/com/space/service/ShipServiceImp.java:54-74 | a missing required field fails before any bound check, and a bound failure reports the first failing field. On failure nothing is stored. On success a record with a fresh id is added. It holds the given fields, `isUsed` defaulted to false only when absent, and the derived rating. The store invariant is kept |
| `ShipService.MergeUpdates` | src/main/java/com/space/service/ShipServiceImp.java:149-178 | each field present in the update holds the new value. Each absent field, the id and the rating keep the old value |
| `ShipService.ShipRegistry.Update` | src/main/java/com/space/service/ShipServiceImp.java:143-184 | a bad or unknown id fails before the payload is checked. On failure nothing changes. On success the record keeps its id, takes the present fields and keeps the absent ones. Its rating is recomputed from the merged record. The store invariant is kept |
| `ShipService.ShipRegistry.Delete` | src/main/java/com/space/service/ShipServiceImp.java:186-190 | a failed lookup propagates its error and changes nothing. Otherwise exactly that record is removed, and a later lookup of the same id yields NotFound |
| `Ships.CivilYearMonotonic` | src/main/java/com/space/service/ShipServiceImp.java:102-104 | the year of a later day is never smaller |
| `Ships.YearOfMonotonic` | src/main/java/com/space/service/ShipServiceImp.java:102-104 | the year of a later instant is never smaller |
| `Ships.YearWithin2800To3019` | src/main/java/com/space/service/ShipServiceImp.java:102-105 | the year of an instant lies in 2800..3019 exactly when the instant lies in [2800-01-01T00:00Z, 3020-01-01T00:00Z) |
| `ShipService.ProdDateAccepted` | src/main/java/com/space/service/ShipServiceImp.java:101-107 | a present production date passes the check exactly when it lies in [2800-01-01T00:00Z, 3020-01-01T00:00Z) |
| `Ships.YearOfEpoch` | src/main/java/com/space/service/ShipServiceImp.java:102-104 | instant 0 is in year 1970 |
| `Ships.YearOfJustBefore2800` | src/main/java/com/space/service/ShipServiceImp.java:102-105 | the last millisecond before 2800-01-01 UTC is in 2799 |
| `Ships.YearOfStartOf2800` | src/main/java/com/space/service/ShipServiceImp.java:102-105 | 2800-01-01T00:00Z is in 2800, the first accepted year |
| `Ships.YearOfJustBefore3020` | src/main/java/com/space/service/ShipServiceImp.java:102-105 | the last millisecond before 3020-01-01 UTC is in 3019, the last accepted year |
| `Ships.YearOfStartOf3020` | src/main/java/com/space/service/ShipServiceImp.java:102-105 | 3020-01-01T00:00Z is in 3020 |
| `ShipFilters.Contains` | src/main/java/com/space/service/ShipSpecificationsFilters.java:13 | `Contains(text, sub)` holds exactly when `sub` occurs at some position of `text` |
| `ShipFilters.FilterByName` | src/main/java/com/space/service/ShipSpecificationsFilters.java:12-14 | no constraint exactly when the name is absent. Otherwise it matches the ships whose name contains the text |
| `ShipFilters.FilterByPlanet` | src/main/java/com/space/service/ShipSpecificationsFilters.java:16-18 | no constraint exactly when the planet is absent. Otherwise it matches the ships whose planet contains the text |
| `ShipFilters.FilterByShipType` | src/main/java/com/space/service/ShipSpecificationsFilters.java:20-22 | no constraint exactly when the type is absent. Otherwise it matches the ships of exactly that type |
| `ShipFilters.FilterBeforeDate` | src/main/java/com/space/service/ShipSpecificationsFilters.java:24-33 | no constraint exactly when the instant is absent. Otherwise it matches prodDate < before (strict) |
| `ShipFilters.FilterAfterDate` | src/main/java/com/space/service/ShipSpecificationsFilters.java:35-45 | no constraint exactly when the instant is absent. Otherwise it matches prodDate ≥ after (inclusive) |
| `ShipFilters.FilterByUsage` | src/main/java/com/space/service/ShipSpecificationsFilters.java:47-57 | no constraint exactly when the flag is absent. Otherwise it matches the ships whose used flag equals it |
| `ShipFilters.RangeFilter` | src/main/java/com/space/service/ShipSpecificationsFilters.java:59-72 | no constraint exactly when both bounds are absent. Otherwise a ship matches exactly when min ≤ v (if min given) and v ≤ max (if max given) |
| `ShipFilters.FilterBySpeed` | src/main/java/com/space/service/ShipSpecificationsFilters.java:59-72 | the range shape over speed |
| `ShipFilters.FilterByCrewSize` | src/main/java/com/space/service/ShipSpecificationsFilters.java:74-87 | the range shape over crew size, with integer bounds compared exactly |
| `ShipFilters.FilterByRating` | src/main/java/com/space/service/ShipSpecificationsFilters.java:89-102 | the range shape over rating |
| `ShipFilters.RangeIsBothHalves` | src/main/java/com/space/service/ShipSpecificationsFilters.java:64-70 | a two-sided range matches exactly where both one-sided halves match. When min > max it matches nothing |
| `ShipFilters.BeforeAfterPartition` | src/main/java/com/space/service/ShipSpecificationsFilters.java:24-45 | "before t" and "after t" split all ships between them. A ship produced exactly at t is excluded by the first and included by the second |
| `ShipFilters.Combine` | src/main/java/com/space/service/ShipSpecificationsFilters.java:13 | the AND of two fragments matches exactly where both match. A `NoConstraint` side vanishes, leaving the other fragment itself |
| `ShipFilters.AllOf` | src/main/java/com/space/service/ShipSpecificationsFilters.java:13 | the AND-fold of a query's fragments matches exactly where every fragment matches. A query of only `NoConstraint` fragments is `NoConstraint` |
| `ShipFilters.AllOfSkipsNoConstraint` | src/main/java/com/space/service/ShipSpecificationsFilters.java:26-28 | dropping a `NoConstraint` fragment from a query does not change which ships it matches |

## Findings

| source | as written | input that shows it | evidently intended | confidence | as-written member | corrected member |
|---|---|---|---|---|---|---|
| src/main/java/com/space/service/ShipServiceImp.java:134-137 | only the literal "0" is refused before `Long.parseLong`. Other numerals of zero are parsed to 0 and returned as an identifier | `"00"` (also `"000"`, `"+0"`): the check returns 0, and the lookup then reports not found instead of a bad request | every non-positive identifier is refused with a bad request, as "0" and negative ids are | medium, not executed | `ShipService.AsWrittenAcceptsZeroId` (about `ShipService.CheckAndParseIdAsWritten`) | `ShipService.CheckAndParseId` (with `ShipService.IdRejections`), used by `ShipRegistry.Get`, `Update` and `Delete` |

## Left out

- Spring wiring (the `@Autowired` setters, `@Service`, `@Component`) and the interface `ShipService.java`, which only declares signatures.
- JPA `Specification`, `CriteriaBuilder` and `root.get(...)`: filters are data with a `Matches` meaning.
- The `filterByX` methods of `ShipServiceImp` (lines 192-235): they only forward to the filter builders, which are modelled.
- `getAllShipsWithFilters` and `getAllShipsWithFiltersPageable` only forward to the store. The unfiltered list appears only as the ghost set `ShipRegistry.Listed`, used to state the count. List order and paging are not modelled.
- The real repository (`saveAndFlush`, `findById`, `delete`, `findAll`) is replaced by the map and an identifier counter. Storage-side normalisation is not modelled, such as truncating a stored date to a day. An identifier the payload may carry is ignored, and so is a rating it may carry. Running the counter past 2^63 − 1 is not modelled.
- Ships.YearOf: computes the proleptic Gregorian year in UTC, counted as a signed number (1 BC is year 0). The source reads `Calendar.YEAR` from `Calendar.getInstance()`, and that differs in three ways. It uses the JVM's default time zone. `GregorianCalendar` follows Julian rules before 1582-10-15 and reports the year of the era, so an instant in 2900 BC has YEAR 2900. It passes the source's check and is rated with the divisor 120, while the model refuses it as "ship's production date". A locale may also select another calendar (a Buddhist calendar counts years 543 higher). The date filters compare epoch milliseconds directly, which is what the conversion through `Calendar` preserves.
- ShipService.ShipRegistry.Get: uses the corrected identifier check. For an id that the source parses to 0 other than "0" (such as "00" or "+0"), it reports "Incorrect ID" where the source's `getShip` reports not found. `GetOnZeroNumeral` states the difference.
- ShipService.ShipRegistry.Update: looks the record up through `Get`. For an id that parses to 0 it fails with "Incorrect ID" where the source fails with not found. Nothing is changed in either case.
- ShipService.ShipRegistry.Delete: the same as `Update`: for an id that parses to 0 the error is "Incorrect ID" instead of not found, and nothing is removed.
- Binary floating point: speed, rating and the filter bounds are exact reals. The artefacts of `BigDecimal.valueOf(double)` and of double division are not reproduced. The infinities are not separate values: they fail the speed check exactly as any out-of-range number does. A NaN filter bound is not modelled.
- String length: Java counts UTF-16 code units, while the model counts Dafny characters (Unicode scalar values). The two differ only for characters outside the Basic Multilingual Plane.
- `Long.parseLong` accepts non-ASCII decimal digits, and the model does not.
- SQL `LIKE`: `%` and `_` inside a criterion, and case-insensitive collations, are not modelled. Name and planet filters are plain substring containment.
- `com/space/model/ShipType.java` is not part of this model. Its closed set of categories is taken to be `Transport`, `Military` and `Merchant`, and only equality between categories is used.
- `com/space/exceptions/ErrorMessages.java` is not part of this model. Errors carry the parameter names the service passes, not the final message texts.
- Concurrency and transactions are left to the store and are not modelled.
