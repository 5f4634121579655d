# Shipping by total — a Dafny model

This project models the rate engine of nopCommerce's "Shipping by total" plugin. The plugin prices each shipping method from rules the shop administrator stores. A rule scopes a method to a country (and, in the newer version, a store, warehouse, state and ZIP), gives a subtotal range `[From, To]`, and carries either a flat amount or a percentage of the subtotal. The repository holds two versions of the plugin, and both are modelled as written:

- **the older, country-scoped version** (`Nop.Plugin.Shipping.ByTotal/`):
  - the rule repository: its matcher, listing, lookup by id, insert, update and delete;
  - the computation method: `GetRate` and `GetShippingOptions`;
  - the admin actions that store rules and the one setting.
- **the newer version** (repository root):
  - the computation method, over a matcher given as a function;
  - the admin actions.

Modules:

| module | file | contents |
|---|---|---|
| `Wrappers` | wrappers.dfy | `Option`, standing for a nullable reference |
| `Domain` | domain.dfy | the rate rule `Record`, shipping methods and options, the settings object, action results |
| `Rounding` | rounding.dfy | `Math.Round(d, 2)`: round half to even, to cents |
| `Text` | text.dfy | .NET `String.Trim`, the ZIP normalisation of the add actions, the `"*"` rule of the update actions |
| `RecordService` | record_service.dfy | the rule table as a class over `seq<Record>`, the matcher, the CRUD methods |
| `Rates` | rates.dfy | the charge chain shared by both `GetRate`s; the subtotal and options loops |
| `LegacyComputation` | legacy_computation.dfy | the older computation method |
| `Computation` | computation.dfy | the newer computation method |
| `LegacyAdmin` | legacy_admin.dfy | the older admin controller |
| `Admin` | admin.dfy | the newer admin controller |

Money is an exact `real`, standing for .NET `decimal`. A null reference is `None`. A thrown exception is a result constructor:

- `ArgumentNullThrown` for the service's null checks;
- `NullRequestThrown` for a null request;
- `NullReferenceThrown` for an update of an identifier with no row.

Each stateful operation is a method proved against a specification function:

- `FindShippingByTotalRecord` against `FindRecord`;
- `GetShippingOptions` against `Options` (the newer one through `ShippingOptionsOutcome`);
- each controller action against `AddedRecord`, `UpdatedRecord`, `ReplaceById` and `RemoveById`.

The lemmas state what the source promises about those functions.

## Model

| member | source | states |
|---|---|---|
| `Rounding.RoundToCents` | ByTotalShippingComputationMethod.cs:147 | the cent count nearest to 100·x; a tie goes to the even count (`Math.Round`'s default midpoint rule) |
| `Rounding.RoundToCentsUnique` | ByTotalShippingComputationMethod.cs:147 | any cent count at least as near, and even on a tie, is the rounded one, so the rounding is determined |
| `Rounding.Round2` | ByTotalShippingComputationMethod.cs:147 | a whole number of hundredths, the one `RoundToCents` picks (nearest, ties to even), so within half a cent of its input and of the same sign (also Nop.Plugin.Shipping.ByTotal/ByTotalShippingComputationMethod.cs:119) |
| `Rounding.Round2Idempotent` | ByTotalShippingComputationMethod.cs:147 | rounding an already rounded amount changes nothing |
| `Rounding.Round2Examples` | ByTotalShippingComputationMethod.cs:147 | 0.005 rounds to 0, 0.015 to 0.02, 1.9995 to 2.00; 0.5 stays |
| `Text.TrimStart` | Controllers/ShippingByTotalController.cs:270 | the result is a suffix of the input, the cut part is all white space, and it does not start with white space |
| `Text.TrimEnd` | Controllers/ShippingByTotalController.cs:270 | the result is a prefix of the input, the cut part is all white space, and it does not end with white space |
| `Text.Trim` | Controllers/ShippingByTotalController.cs:270 | the result is a slice of the input with no white space at either end, and everything removed is white space |
| `Text.TrimOfTrimmed` | Controllers/ShippingByTotalController.cs:270 | a string with no white space at either end is its own trim |
| `Text.TrimIdempotent` | Controllers/ShippingByTotalController.cs:270 | trimming twice is trimming once |
| `Text.Truncate` | Controllers/ShippingByTotalController.cs:271-274 | `Substring(0, n)` when longer than n: exactly the first n characters; the input itself otherwise |
| `Text.NormalizeZip` | Controllers/ShippingByTotalController.cs:265-275 | null stays null; otherwise the trimmed ZIP when it fits in `ZipPostalCodeMaxLength` (400, ByTotalShippingComputationMethod.cs:34), else exactly its first 400 characters; never longer, never starting with white space |
| `Text.NormalizeZipStable` | Controllers/ShippingByTotalController.cs:265-275 | a ZIP that is already trimmed and within 400 characters is stored unchanged |
| `Text.TruncationCanEndInWhiteSpace` | Controllers/ShippingByTotalController.cs:270-274 | the cut comes after the trim, so a stored ZIP can end in white space (a 401-character ZIP with a space at index 399) |
| `Text.StarToNull` | Controllers/ShippingByTotalController.cs:224 | on update a ZIP of `"*"` is stored as null and any other value verbatim, with no trim or cut |
| `RecordService.InsertByKey` | Nop.Plugin.Shipping.ByTotal/Services/ShippingByTotalService.cs:46-48 | inserting into a list sorted by (CountryId, ShippingMethodId, From) keeps it sorted and adds exactly that record |
| `RecordService.OrderByKey` | Nop.Plugin.Shipping.ByTotal/Services/ShippingByTotalService.cs:46-48 | the ordered list is sorted by (CountryId, ShippingMethodId, From) and a permutation of the table |
| `RecordService.Candidates` | Nop.Plugin.Shipping.ByTotal/Services/ShippingByTotalService.cs:81-82 | a record is a candidate exactly when it is in the table, has the requested method and its `[From, To]` contains the subtotal |
| `RecordService.FirstIndexOfCountry` | Nop.Plugin.Shipping.ByTotal/Services/ShippingByTotalService.cs:89-103 | the first position of the country in the list, or the list length when there is none; nothing before it has the country |
| `RecordService.ExistingRecordsMembers` | Nop.Plugin.Shipping.ByTotal/Services/ShippingByTotalService.cs:81-86 | the sorted candidate list holds exactly the in-range records of the method |
| `RecordService.FindRecord` | Nop.Plugin.Shipping.ByTotal/Services/ShippingByTotalService.cs:79-106 | the match is one of the ordered candidates, of the requested country or the wildcard 0 and never another; a wildcard is returned only when no candidate has the requested country |
| `RecordService.FoundIsInRange` | Nop.Plugin.Shipping.ByTotal/Services/ShippingByTotalService.cs:81-82 | a found rule is in the table, has the requested method and a range containing the subtotal |
| `RecordService.ExactCountryWins` | Nop.Plugin.Shipping.ByTotal/Services/ShippingByTotalService.cs:89-95 | if any in-range rule of the method has the exact country, the found rule has that country, whatever wildcard rules exist |
| `RecordService.NoneIffNoCandidate` | Nop.Plugin.Shipping.ByTotal/Services/ShippingByTotalService.cs:97-105 | nothing is found exactly when no in-range rule of the method has the exact country or country 0 |
| `RecordService.FoundHasSmallestFrom` | Nop.Plugin.Shipping.ByTotal/Services/ShippingByTotalService.cs:83-103 | within the winning country, the found rule has the smallest `From` of the candidates |
| `RecordService.Lookup` | Nop.Plugin.Shipping.ByTotal/Services/ShippingByTotalService.cs:67 | lookup by identifier finds a row of the table with that identifier, and finds one whenever one exists |
| `RecordService.ReplaceById` | Nop.Plugin.Shipping.ByTotal/Services/ShippingByTotalService.cs:147 | the row with the record's identifier becomes the record; the length and every other row stay |
| `RecordService.RemoveById` | Nop.Plugin.Shipping.ByTotal/Services/ShippingByTotalService.cs:119 | no row with the identifier remains, and every remaining row was in the table |
| `RecordService.RemovePresentId` | Nop.Plugin.Shipping.ByTotal/Services/ShippingByTotalService.cs:119 | with distinct identifiers, deleting a present row removes exactly one row |
| `RecordService.RemoveAbsentId` | Nop.Plugin.Shipping.ByTotal/Services/ShippingByTotalService.cs:119 | deleting an identifier that is not there changes nothing |
| `RecordService.RemoveKeepsOrder` | Nop.Plugin.Shipping.ByTotal/Services/ShippingByTotalService.cs:119 | deletion distributes over concatenation, so the other rows keep their order |
| `RecordService.RemoveKeepsIds` | Nop.Plugin.Shipping.ByTotal/Services/ShippingByTotalService.cs:119 | deletion keeps the identifiers positive, distinct and below the next identity |
| `RecordService.RecordById` | Nop.Plugin.Shipping.ByTotal/Services/ShippingByTotalService.cs:60-70 | identifier 0 finds nothing; a found row is in the table with that identifier; any other identifier present in the table is found |
| `RecordService.LookupAfterReplace` | Nop.Plugin.Shipping.ByTotal/Services/ShippingByTotalService.cs:140-148 | after an update of a present row its identifier finds the new record; every other identifier finds what it found before |
| `RecordService.LookupAfterAppend` | Nop.Plugin.Shipping.ByTotal/Services/ShippingByTotalService.cs:126-134 | after an insert under a fresh identifier, that identifier finds the record and no other lookup changes |
| `RecordService.LookupAfterRemove` | Nop.Plugin.Shipping.ByTotal/Services/ShippingByTotalService.cs:112-120 | after a delete the identifier finds nothing and every other identifier finds what it found before |
| `RecordService.ShippingByTotalService.GetAllShippingByTotalRecords` | Nop.Plugin.Shipping.ByTotal/Services/ShippingByTotalService.cs:44-53 | returns every record, each as often as it is stored, sorted by (CountryId, ShippingMethodId, From); the table is unchanged |
| `RecordService.ShippingByTotalService.GetShippingByTotalRecordById` | Nop.Plugin.Shipping.ByTotal/Services/ShippingByTotalService.cs:60-70 | identifier 0 gives null without consulting the table; any other gives the table's row with that identifier, if any |
| `RecordService.ShippingByTotalService.FindShippingByTotalRecord` | Nop.Plugin.Shipping.ByTotal/Services/ShippingByTotalService.cs:79-106 | the filter, sort and two scans return `FindRecord`: the first in-range rule of the exact country, else the first of country 0, else null |
| `RecordService.ShippingByTotalService.DeleteShippingByTotalRecord` | Nop.Plugin.Shipping.ByTotal/Services/ShippingByTotalService.cs:112-120 | null is rejected with the table unchanged; otherwise the record's row is removed and the identifiers stay valid |
| `RecordService.ShippingByTotalService.InsertShippingByTotalRecord` | Nop.Plugin.Shipping.ByTotal/Services/ShippingByTotalService.cs:126-134 | null is rejected with the table unchanged; otherwise exactly that record is appended under the next identity |
| `RecordService.ShippingByTotalService.UpdateShippingByTotalRecord` | Nop.Plugin.Shipping.ByTotal/Services/ShippingByTotalService.cs:140-148 | null is rejected with the table unchanged; otherwise the row with the record's identifier is replaced and nothing else changes |
| `Rates.PercentOf` | ByTotalShippingComputationMethod.cs:147 | subtotal·percentage/100 is non-negative for non-negative inputs and non-positive for a non-positive subtotal and non-negative percentage |
| `Rates.ChargeFor` | ByTotalShippingComputationMethod.cs:121-159 | no rule: unavailable when `LimitMethodsToCreated`, else 0; a rule: always a rate, never negative; 0 for a non-positive active charge; the flat amount; the percentage of the subtotal rounded to cents (the same chain as Nop.Plugin.Shipping.ByTotal/ByTotalShippingComputationMethod.cs:91-131) |
| `Rates.ChargeIgnoresInactiveField` | ByTotalShippingComputationMethod.cs:135-152 | two rules with the same mode and the same active charge price every subtotal the same |
| `Rates.CountedSumAppend` | ByTotalShippingComputationMethod.cs:197-205 | the subtotal of a list of lines is the sum of the subtotals of its parts, so adding line by line in the loop computes it (the same loop as Nop.Plugin.Shipping.ByTotal/ByTotalShippingComputationMethod.cs:197-205) |
| `Rates.SkippedLinesAddNothing` | ByTotalShippingComputationMethod.cs:200-203 | lines the loop skips add nothing: a list of them sums to 0 |
| `Rates.CountedSumNonNegative` | ByTotalShippingComputationMethod.cs:197-205 | line subtotals that are non-negative give a non-negative subtotal |
| `Rates.Options` | ByTotalShippingComputationMethod.cs:207-220 | never more options than catalogue methods |
| `Rates.OptionsAppend` | ByTotalShippingComputationMethod.cs:207-220 | the options of a longer catalogue extend those of its prefix, which is what appending in the loop builds |
| `Rates.OptionsExtend` | ByTotalShippingComputationMethod.cs:208-219 | one more catalogue method appends its option, when it has a rate, at the end |
| `Rates.OptionsSound` | ByTotalShippingComputationMethod.cs:207-220 | every option comes from a catalogue method that has a rate, with its name, description and that rate |
| `Rates.OptionsComplete` | ByTotalShippingComputationMethod.cs:207-220 | every catalogue method that has a rate yields its option |
| `Rates.OptionsAllRated` | ByTotalShippingComputationMethod.cs:207-220 | when every method has a rate, there is one option per method, in catalogue order |
| `Rates.OptionsNoneRated` | ByTotalShippingComputationMethod.cs:207-220 | when no method has a rate, there are no options |
| `LegacyComputation.ExcludedLinesDoNotCount` | Nop.Plugin.Shipping.ByTotal/ByTotalShippingComputationMethod.cs:200-203 | adding lines that ship free or are not ship-enabled leaves the subtotal unchanged |
| `LegacyComputation.ShippableSubTotal` | Nop.Plugin.Shipping.ByTotal/ByTotalShippingComputationMethod.cs:197-205 | the `foreach` sum: 0 when every line ships free or is not ship-enabled, non-negative when line subtotals are |
| `LegacyComputation.LegacyRate` | Nop.Plugin.Shipping.ByTotal/ByTotalShippingComputationMethod.cs:89-132 | unavailable exactly when `LimitMethodsToCreated` is on and no in-range rule of the method has the country or country 0; every rate non-negative |
| `LegacyComputation.NoRuleRate` | Nop.Plugin.Shipping.ByTotal/ByTotalShippingComputationMethod.cs:93-105 | with no in-range rule for the country or wildcard, the rate is null when limited and 0 otherwise |
| `LegacyComputation.ExactCountryRatePrevails` | Nop.Plugin.Shipping.ByTotal/ByTotalShippingComputationMethod.cs:93-124 | the only in-range flat rule of the exact country sets the rate to its amount, whatever wildcard rules say |
| `LegacyComputation.ByTotalShippingComputationMethod.GetRate` | Nop.Plugin.Shipping.ByTotal/ByTotalShippingComputationMethod.cs:89-132 | the service's matcher followed by the charge chain |
| `LegacyComputation.ShippingOptionsOutcome` | Nop.Plugin.Shipping.ByTotal/ByTotalShippingComputationMethod.cs:175-222 | null request throws; a null or empty item list and then a null address give their error with no options; otherwise no error and at most one option per catalogue method of the address country (0 when unset) |
| `LegacyComputation.ByTotalShippingComputationMethod.AddShippingOptions` | Nop.Plugin.Shipping.ByTotal/ByTotalShippingComputationMethod.cs:207-219 | the options loop builds `Options` of the catalogue at the rates `GetRate` gives, in catalogue order |
| `LegacyComputation.ByTotalShippingComputationMethod.GetShippingOptions` | Nop.Plugin.Shipping.ByTotal/ByTotalShippingComputationMethod.cs:175-222 | the checks, the subtotal loop and the options loop return `ShippingOptionsOutcome`: the options of the country's catalogue rated at the subtotal of the counted lines |
| `LegacyComputation.EveryMethodOfferedWhenUnlimited` | Nop.Plugin.Shipping.ByTotal/ByTotalShippingComputationMethod.cs:207-219 | with `LimitMethodsToCreated` off, the i-th option is the i-th catalogue method with its name, description and rate |
| `LegacyComputation.OfferedRatesNonNegative` | Nop.Plugin.Shipping.ByTotal/ByTotalShippingComputationMethod.cs:207-219 | every offered rate is non-negative |
| `Computation.FreeLinesDoNotCount` | ByTotalShippingComputationMethod.cs:200-203 | adding free-shipping lines leaves the subtotal unchanged |
| `Computation.ShippableSubTotal` | ByTotalShippingComputationMethod.cs:197-205 | the `foreach` sum: 0 when every line ships free, non-negative when line subtotals are |
| `Computation.GetRate` | ByTotalShippingComputationMethod.cs:119-160 | unavailable exactly when the matcher finds no rule and `LimitMethodsToCreated` is on; else 0 with no rule or a non-positive active charge, the flat amount, or the percentage rounded to cents; never negative |
| `Computation.ContextOf` | ByTotalShippingComputationMethod.cs:191-195 | the request store, or the current store when it is 0; the address country and state, 0 when unset; the origin warehouse, 0 when none; the address ZIP as given |
| `Computation.ShippingOptionsOutcome` | ByTotalShippingComputationMethod.cs:171-223 | null request throws; a null or empty item list, then a null address, give their error and no options; otherwise no error and at most one option per catalogue method of the address country |
| `Computation.AsWrittenOutcome` | ByTotalShippingComputationMethod.cs:180-198 | with the test as written a null item list and a null address give the address error, a null item list with an address dereferences null, and every other request is answered as `ShippingOptionsOutcome` does |
| `Computation.CorrectedGuardDiffersOnNullItems` | ByTotalShippingComputationMethod.cs:180-189 | the two answers differ exactly on requests with a null item list, where the intended one is "No shipment items" |
| `Computation.NullItemsPassTheGuard` | ByTotalShippingComputationMethod.cs:180 | `Items?.Count == 0` is false when `Items` is null, so a request with a null item list passes the test that should stop it |
| `Computation.NoShipmentItemsGuardsTheLoop` | ByTotalShippingComputationMethod.cs:180-198 | past the corrected test the item list is present; the two tests differ on the null list only |
| `Computation.ByTotalShippingComputationMethod.GetShippingOptions` | ByTotalShippingComputationMethod.cs:171-223 | the subtotal and options loops return `ShippingOptionsOutcome`: the options rated by the matcher in the request context, at the subtotal of the non-free lines, in catalogue order |
| `Computation.ByTotalShippingComputationMethod.AddShippingOptions` | ByTotalShippingComputationMethod.cs:207-220 | the options loop builds `Options` of the catalogue at the rates `GetRate` gives in the request context, in catalogue order |
| `Computation.UnmatchedMethodExcludedWhenLimited` | ByTotalShippingComputationMethod.cs:125-130 | with `LimitMethodsToCreated` on, a method the matcher finds no rule for yields no option |
| `Computation.EveryMethodOfferedWhenUnlimited` | ByTotalShippingComputationMethod.cs:207-220 | with `LimitMethodsToCreated` off, the i-th option is the i-th catalogue method with its name, description and rate |
| `Computation.OfferedRatesNonNegative` | ByTotalShippingComputationMethod.cs:207-220 | every offered rate is non-negative |
| `LegacyAdmin.AddedRecord` | Nop.Plugin.Shipping.ByTotal/Controllers/ShippingByTotalController.cs:219-244 | the normalised ZIP; the inactive charge 0 and the active one as posted; the Add* scope, order and range copied; no warehouse (0) |
| `LegacyAdmin.UpdatedRecord` | Nop.Plugin.Shipping.ByTotal/Controllers/ShippingByTotalController.cs:182-190 | ZIP by the `"*"` rule; order, range, mode and both charges as posted; identifier, method, store, warehouse, country and state as stored |
| `LegacyAdmin.UpdateCanKeepInactiveCharge` | Nop.Plugin.Shipping.ByTotal/Controllers/ShippingByTotalController.cs:187-189 | a flat-rate update that posts a percentage stores a non-zero inactive charge |
| `LegacyAdmin.UpdatedRecordChargesActiveField` | Nop.Plugin.Shipping.ByTotal/Controllers/ShippingByTotalController.cs:187-189 | the kept inactive charge is never charged: the updated rule prices like its zeroed form |
| `LegacyAdmin.UpdateKeepsScope` | Nop.Plugin.Shipping.ByTotal/Controllers/ShippingByTotalController.cs:182-190 | after an update the identifier finds the updated rule, with the stored method and country |
| `LegacyAdmin.ShippingByTotalController.RateUpdate` | Nop.Plugin.Shipping.ByTotal/Controllers/ShippingByTotalController.cs:170-193 | unauthorised or invalid model: that result and no change; no row: null dereference and no change; otherwise the row is replaced by `UpdatedRecord`; the identity counter never changes |
| `LegacyAdmin.ShippingByTotalController.AddShippingRate` | Nop.Plugin.Shipping.ByTotal/Controllers/ShippingByTotalController.cs:212-248 | unauthorised: no change; otherwise `AddedRecord` is appended under the next identity; the identity counter advances by one exactly when a row is added |
| `LegacyAdmin.ShippingByTotalController.SaveGeneralSettings` | Nop.Plugin.Shipping.ByTotal/Controllers/ShippingByTotalController.cs:251-263 | sets `LimitMethodsToCreated` to the posted value only when authorised |
| `Admin.AddedRecord` | Controllers/ShippingByTotalController.cs:265-291 | the normalised ZIP; the inactive charge 0 and the active one as posted; method, store, warehouse, country, state, order, range and mode copied |
| `Admin.UpdatedRecord` | Controllers/ShippingByTotalController.cs:223-236 | identifier kept; ZIP by the `"*"` rule; the inactive charge zeroed as on add; every other editable field from the model |
| `Admin.UpdateAgreesWithAdd` | Controllers/ShippingByTotalController.cs:223-236 | update stores what add would, except the identifier and the ZIP rule, so nothing of the stored row survives but its identifier |
| `Admin.AddedRecordKeepsCharge` | Controllers/ShippingByTotalController.cs:289-290 | zeroing the inactive charge never changes the rate of the stored rule |
| `Admin.UpdatedRowIsFound` | Controllers/ShippingByTotalController.cs:223-236 | after an update the identifier finds the updated rule and every other identifier what it found before |
| `Admin.ShippingByTotalController.RateUpdate` | Controllers/ShippingByTotalController.cs:216-239 | unauthorised: no change; no row: null dereference and no change; otherwise the row is replaced by `UpdatedRecord`; the identity counter never changes |
| `Admin.ShippingByTotalController.RateDelete` | Controllers/ShippingByTotalController.cs:242-255 | the row is removed only when authorised and the lookup by identifier finds it; the identity counter never changes |
| `Admin.ShippingByTotalController.AddShippingRate` | Controllers/ShippingByTotalController.cs:258-295 | unauthorised: no change; otherwise `AddedRecord` is appended under the next identity; the identity counter advances by one exactly when a row is added |
| `Admin.ShippingByTotalController.SaveGeneralSettings` | Controllers/ShippingByTotalController.cs:298-310 | sets `LimitMethodsToCreated` to the posted value only when authorised |

## Left out

- Float arithmetic. The percentage branch converts to `float` before rounding. The model multiplies exact values and then rounds half to even to cents, so float error is not reproduced.
- The newer seven-argument `FindShippingByTotalRecord`: its implementation is not part of this model. It is the `Matcher` function parameter, and no store, warehouse, state or ZIP precedence is assumed for it.
- The newer service's table methods are not part of this model. The newer controller uses the older service's table model.
- ZIP wildcard, range and list patterns appear only in a hint text, so they are not modelled. `DisplayOrder` is stored but never used by the matcher shown.
- Decimal bounds: .NET `decimal` has a bounded range and 28-29 significant digits. The subtotal `+=` and the cast of the float product throw an overflow exception at those bounds, while `real` is unbounded and exact.
- `Text.Truncate`, `Text.NormalizeZip`: .NET string lengths and `Substring` count UTF-16 code units, while the model counts Unicode characters. For a ZIP with characters outside the Basic Multilingual Plane the model can keep more characters than the source, which may cut a surrogate pair in half.
- Sort ties: SQL leaves the order of equal (CountryId, ShippingMethodId, From) keys unspecified. The model's sort is one fixed stable order. The matcher's result does not depend on this order except among equal keys.
- Collaborator services become inputs:
  - `GetSubTotal` is a field of each line;
  - the shipping-method catalogue is a function of the country;
  - the current store is an argument;
  - the permission check is a boolean;
  - the model-state check is a boolean;
  - localisation passes names and descriptions through;
  - `SaveSetting` persistence is not modelled.
- Entity identity: the update actions change the fetched entity in place. The model builds the new value and replaces the row with the same identifier. Aliasing between the fetched entity and the table is not modelled.
- The ORM's own errors are not modelled, such as an update or delete of a row that is absent or that another user changed.
- Response bodies: grid JSON, messages and the `RatesList` refresh are not modelled. Actions return an `ActionResult` tag.
- Plugin lifecycle, configuration pages, grids, routing, dependency registration, the schema and the unused cache are not modelled.
- The older controller's `RateDelete` is not modelled.

## Findings

| source | as written | input that shows it | evidently intended | confidence | as-written member | corrected member |
|---|---|---|---|---|---|---|
| ByTotalShippingComputationMethod.cs:180 | `Items?.Count == 0` is false when `Items` is null, so the request passes the test; with an address the subtotal loop at line 198 then dereferences null, and without one the request is answered "Shipping address is not set" | a request with a null item list, with or without a shipping address | answer "No shipment items" for a null list, as the older version does at Nop.Plugin.Shipping.ByTotal/ByTotalShippingComputationMethod.cs:184 | medium, not executed | `Computation.AsWrittenOutcome` (with `Computation.NullItemsPassTheGuard` about the test `Computation.ItemsCountIsZero`) | `Computation.ShippingOptionsOutcome`, returned by `Computation.ByTotalShippingComputationMethod.GetShippingOptions`; `Computation.CorrectedGuardDiffersOnNullItems` proves the two differ exactly on a null item list, where it answers "No shipment items" |
