# Izzy Uploader core, modelled in Dafny

Izzy Uploader reads a partner's vehicle stock from a CSV file and keeps the Izzylease
leasing platform in step with it. This project models the core of that service and proves
properties of the model:

- **`normalizers.py`** (module `Normalizers`) cleans one raw CSV row. Every value is
  stripped and a literal `NULL` is blanked. The six enumerations go through the partner
  alias tables. An empty engine code becomes `-`. Integers are rounded half up, and zero
  is blanked except for `doors`. Amounts are written in plain notation. Dates are cut at
  the first space. A description is de-duplicated line by line. The partner location id
  is mapped through the location table.
- **`models.py`** (module `Models`) defines the `Vehicle` record and `vehicle_from_row`,
  which includes the `require` bookkeeping, the numeric parsers and their error texts,
  and the doors rule. It also models `to_api_payload` (fields that are None are dropped,
  money is written in plain notation), `unique_vins` and the enumeration helpers.
- **`csv_loader.py`** (module `CsvLoader`) models `load_vehicles_from_csv`. Each row is
  cleaned and converted, and it becomes either a vehicle or a `CsvRowError` carrying its
  line number and raw VIN. It also models `format_for_display` and `assert_no_errors`.
- **`state.py`** (module `State`) models the VIN to car-id store. Its operations are
  `upsert`, `mark_deleted`, `mark_active` and `known_vins`. It also models the document
  `save` writes and `_load`, which validates each entry and drops everything on an
  unreadable file.
- **`pipelines/import_pipeline.py`** (module `Pipeline`) models `VehicleSynchronizer.run`.
  It fetches the remote lookup, then updates or creates each desired vehicle, pushes
  prices when that is asked for and due, and closes remote vehicles that are no longer
  desired. Each client call that raises becomes one error text in the `PipelineReport`.

The two supporting modules are `Text` and `Numeric`:

- `Text` covers the Python string operations used above: `strip` over Python's whitespace
  set, ASCII case mapping, `split`, `join`, `str(int)` and `sorted(set(...))`.
- `Numeric` models a finite `Decimal`: exact value, `ROUND_HALF_UP`, `normalize()` and
  `format(d, "f")`. Fixed notation is read back independently to prove that the text
  written for money denotes the same amount.

Modelling decisions:

- **Library behaviour is passed in, not modelled.** Some behaviour belongs to the Python
  library or to files the core reads. The model takes it as a parameter:
  - `Decimal(text)` is a `DecimalSyntax`;
  - `date.fromisoformat` is a `DateSyntax`;
  - `date.isoformat` is a `DateText`;
  - the NFKD folding is a `Fold`;
  - the partner location table is a map.
- **Stateful code becomes classes.** `VehicleStateStore`, `PipelineReport`,
  `VehicleSynchronizer` and the remote client are Dafny classes. Their fields are updated
  in place. The loops of `run`, `_load` and `load_vehicles_from_csv` are methods with
  invariants. Each is proved against a functional specification: `SyncVehicles`,
  `CloseAll`, `ValidEntries` and `LoadFirst`.
- **The remote client is an oracle.** The client is a fixed lookup result plus a table of
  the calls that raise (with their message), and it logs every call. Each call is made at
  most once per run, so a fixed table covers every pattern of failures.
- **Iteration order.** The order of iterating a Python `set` (`to_close`) is not fixed. It
  is modelled as a nondeterministic choice, and the order taken is returned as a ghost
  value. The loop over `desired.values()` is modelled as the loop over the input vehicles.
  Once the ids are known to be distinct, a dictionary built in insertion order yields the
  same vehicles in the same order.

Notes on the code:

- `import_pipeline.py` never consults the state store. `Pipeline` models the reconciliation
  against the remote lookup only.
- `import_pipeline.py` imports `unique_external_ids` and reads `external_id`,
  `sales_price` and `requires_price_discount_flag` from `Vehicle`. None of these is part
  of `models.py`, so they are not part of this model. The pipeline therefore sees a
  vehicle through a `VehicleView`: its external id, its optional sales price and the
  discount-flag decision, all as given functions. De-duplication by external id uses the
  same check as `unique_vins`, which `Models.UniqueKeyed` models generically: the first
  repeated key raises.
- The price returned by `_extract_price` is taken to be what the lookup gives for the id,
  already converted.

## Model

| member | source | states |
|---|---|---|
| Text.Strip | src/izzy_uploader/normalizers.py:63 | `str.strip()`: no longer than the input, no whitespace at either end, and empty exactly when the input is all whitespace |
| Text.StripIsSlice | src/izzy_uploader/normalizers.py:63 | `str.strip()` removes only whitespace, and only at the two ends: the result is a slice of the input, and everything before and after that slice is whitespace |
| Text.LowerOfUpper | src/izzy_uploader/models.py:207-208 | upper-casing changes only the case of letters: lower-casing the result gives the lower-cased input |
| Text.StripIdempotent | src/izzy_uploader/models.py:207-208 | stripping twice is the same as stripping once |
| Text.StripUpperIdempotent | src/izzy_uploader/models.py:207-208 | `strip().upper()` is a fixed point: applying it to its own result changes nothing |
| Text.SplitJoin | src/izzy_uploader/csv_loader.py:16-18 | lines joined with a separator that none of them contains split back into the same lines |
| Text.SortedUnique | src/izzy_uploader/models.py:122 | `sorted(set(xs))` is strictly increasing and has exactly the elements of `xs` |
| Text.SortedUniqueDetermined | src/izzy_uploader/models.py:122 | two strictly sorted lists with the same elements are equal, so the reported list depends only on the set of names |
| Text.NatToTextRoundTrip | src/izzy_uploader/csv_loader.py:30 | the decimal text of a line number reads back as that number |
| Text.IntToTextInjective | src/izzy_uploader/normalizers.py:69-81 | different integers have different texts |
| Numeric.RoundHalfUp | src/izzy_uploader/models.py:173 | `ROUND_HALF_UP`: the result is within one half of `x`, and an exact half is rounded away from zero |
| Numeric.RoundHalfUpOfInteger | src/izzy_uploader/models.py:173 | an integral value is its own rounding |
| Numeric.Normalize | src/izzy_uploader/models.py:201-204 | `normalize()` keeps the value and removes trailing zeros from the coefficient (zero becomes exponent 0) |
| Numeric.FormatPlain | src/izzy_uploader/models.py:201-204 | `format(d.normalize(), "f")` is fixed notation (an optional minus sign, digits, at most one point with digits on both sides, never an exponent) that reads back as the same value |
| Numeric.FormatPlainMinimal | src/izzy_uploader/models.py:201-204 | a fraction in the money text never ends with 0 |
| Numeric.FormatFixedRoundTrip | src/izzy_uploader/models.py:201-204 | reading the fixed-notation text back gives a Decimal of the same value, so no exponent is needed and no amount is lost |
| Numeric.ParseDecimal | src/izzy_uploader/models.py:170 | `Decimal(text)`: the empty text always raises; any other text gives what the given parser reads |
| State.CarIdOf | src/izzy_uploader/state.py:30-32 | the car id is present exactly when the VIN has an entry, active or not |
| State.Upserted | src/izzy_uploader/state.py:34-46 | after `upsert`, the VIN's entry holds the new car id and configuration and is active; every other entry is unchanged |
| State.WithActive | src/izzy_uploader/state.py:48-56 | only the VIN's flag changes, and only when it has an entry; an unknown VIN leaves the store as it was |
| State.DeletedIsForgottenButRemembered | src/izzy_uploader/state.py:48-51 | after `mark_deleted`, the VIN is no longer known, but its car id is still returned |
| State.ReactivationRestores | src/izzy_uploader/state.py:48-56 | `mark_active` after `mark_deleted` restores an entry that was active |
| State.UpsertIsKnown | src/izzy_uploader/state.py:34-46 | after `upsert`, the VIN is known and maps to the new car id |
| State.ParseEntry | src/izzy_uploader/state.py:86-101 | a member whose payload is not an object, or whose car id is not a string, is skipped; a non-string configuration number becomes None; a non-boolean `active` becomes True |
| State.ValidEntries | src/izzy_uploader/state.py:85-101 | the entries loaded are exactly the valid members, each filed under its VIN |
| State.ValidEntriesStep | src/izzy_uploader/state.py:85-101 | examining one more VIN adds its entry exactly when that entry is valid, whatever the order |
| State.ReadEntry | src/izzy_uploader/state.py:86-95 | the loop body's `isinstance` checks agree with `ParseEntry` |
| State.AfterLoad | src/izzy_uploader/state.py:76-104 | no file leaves the store as it was; an unreadable file or an exception empties it; otherwise the store keeps its entries, those the file does not list with their old values, and gains the valid ones, each written over any old entry for its VIN |
| State.EntryRoundTrip | src/izzy_uploader/state.py:62-71 | each saved entry payload parses back to the entry it came from |
| State.SaveLoadRoundTrip | src/izzy_uploader/state.py:61-104 | loading the document `save` writes into an empty store reproduces every entry |
| State.VehicleStateStore.constructor | src/izzy_uploader/state.py:24-27 | the store starts empty and then holds what `_load` reads from the file |
| State.VehicleStateStore.GetCarId | src/izzy_uploader/state.py:30-32 | the car id of the VIN's entry, or None |
| State.VehicleStateStore.Upsert | src/izzy_uploader/state.py:34-46 | the entries become `Upserted(old entries, …)`, and the store stays well keyed |
| State.VehicleStateStore.MarkDeleted | src/izzy_uploader/state.py:48-51 | the entries become `WithActive(old entries, vin, false)` |
| State.VehicleStateStore.MarkActive | src/izzy_uploader/state.py:53-56 | the entries become `WithActive(old entries, vin, true)` |
| State.VehicleStateStore.KnownVins | src/izzy_uploader/state.py:58-59 | the VINs of the active entries (`ActiveVins`), a subset of the stored VINs |
| State.VehicleStateStore.Save | src/izzy_uploader/state.py:61-71 | returns the document of all entries and changes nothing |
| State.VehicleStateStore.LoadVehicles | src/izzy_uploader/state.py:85-101 | the loop, taken in any order, ends with the old entries overridden by `ValidEntries` of all members |
| State.VehicleStateStore.Load | src/izzy_uploader/state.py:76-104 | the entries become `AfterLoad(old entries, file)` |
| Models.NormaliseEnum | src/izzy_uploader/models.py:207-208 | `strip().upper()`: the result has the length of the stripped input and agrees with it ignoring case, has no lower-case ASCII letter and no whitespace at either end, and is empty exactly when the input is blank |
| Models.NormaliseOptionalEnum | src/izzy_uploader/models.py:211-214 | None for a missing or blank value, otherwise the normalised enumeration |
| Models.NormaliseDriveWheels | src/izzy_uploader/models.py:217-232 | a value whose stripped, lower-cased form is an alias gives that alias's entry of the table; any other value gives `_normalise_enum` of it; the result has no lower-case letter |
| Models.DriveWheelTargets | src/izzy_uploader/models.py:219-229 | every alias leads to FOUR, FRONT or REAR, which are already upper-case |
| Models.DriveWheelsIgnoreCaseAndSpace | src/izzy_uploader/models.py:217-232 | two spellings that differ only in case and surrounding whitespace normalise alike |
| Models.ParseDate | src/izzy_uploader/models.py:192-198 | None or "" gives no date; other text gives the date `date.fromisoformat` reads, and fails with "Invalid date value: <text>" exactly when it reads none |
| Models.ParseInt | src/izzy_uploader/models.py:168-173 | the Decimal rounded half up, or "Invalid integer value for '<field>': <text>" when `Decimal` raises |
| Models.ParseNumber | src/izzy_uploader/models.py:176-181 | the Decimal's value, or "Invalid numeric value for '<field>': <text>" |
| Models.ParseMoney | src/izzy_uploader/models.py:184-189 | the Decimal itself, or "Invalid monetary value for '<field>': <text>" |
| Models.MissingAmong | src/izzy_uploader/models.py:91-96 | the keys that `require` appends: exactly those absent or empty |
| Models.ParseDoors | src/izzy_uploader/models.py:113-116 | an empty value and a value that rounds to 0 both give None; any other parsable value gives its rounding half up; text `Decimal` rejects gives "Invalid integer value for 'doors': <text>" |
| Models.Require | src/izzy_uploader/models.py:91-96 | returns the value, or "" and appends the key to `missing` when the value is absent or empty |
| Models.ReadRowHead | src/izzy_uploader/models.py:98-107 | the fields read up to `acceleration` agree with `ReadHead`, and `missing` holds the absent keys met so far |
| Models.ReadRowTail | src/izzy_uploader/models.py:108-119 | the fields read after the head agree with `ReadTail`, and `missing` is extended in call order |
| Models.VehicleFromRow | src/izzy_uploader/models.py:86-150 | the imperative conversion gives exactly `FromRow`: the first parse error, else the missing-fields error, else the vehicle |
| Models.MissingRequiredRejected | src/izzy_uploader/models.py:121-122 | a row missing any required key is rejected |
| Models.MissingFieldsReport | src/izzy_uploader/models.py:121-122 | a missing-fields message lists the missing keys sorted, each once, and exactly the missing required keys |
| Models.AcceptedRowIsComplete | src/izzy_uploader/models.py:91-122 | an accepted row has a non-empty value for every required key |
| Models.AcceptedRowText | src/izzy_uploader/models.py:124-150 | the text fields of an accepted vehicle are copied from the row or normalised as enumerations |
| Models.AcceptedRowOptional | src/izzy_uploader/models.py:104-116 | in an accepted vehicle, an empty optional field is None, acceleration defaults to 0.0, and doors is never 0 |
| Models.AcceptedRowParts | src/izzy_uploader/models.py:98-150 | an accepted vehicle is assembled from the parsed head, the parsed tail and the optional fields |
| Models.AssembledFields | src/izzy_uploader/models.py:124-150 | what the constructor call copies from the parsed fields and the row |
| Models.TailDoors | src/izzy_uploader/models.py:113-116 | the parsed doors are never `Some(0)`, and None when the value is empty |
| Models.MissingYearReportedAsInvalid | src/izzy_uploader/models.py:98-122 | as written, a row without `manufactureYear` is rejected with "Invalid integer value for 'manufactureYear': " instead of a missing-fields error |
| Models.OnlyTextualKeysReportedMissing | src/izzy_uploader/models.py:98-122 | as written, a missing-fields error never names one of the six numeric required keys |
| Models.FromRowReportingMissing | src/izzy_uploader/models.py:86-150 | corrected conversion: any missing required key, numeric ones included, gives the sorted missing-fields report; otherwise the result is as written |
| Models.Keyed | src/izzy_uploader/models.py:156-160 | every item's key is in the dictionary, and every key of the dictionary is some item's key |
| Models.KeyedDistinct | src/izzy_uploader/models.py:153-161 | with distinct keys, every item is found under its own key and the dictionary has one entry per item |
| Models.UniqueKeyed | src/izzy_uploader/models.py:153-161 | with distinct keys, the keyed dictionary; otherwise the message naming the key of the first repeat |
| Models.UniqueVins | src/izzy_uploader/models.py:153-161 | `unique_vins`: the VIN-keyed dictionary, or "Duplicate vehicle VIN detected: <vin>" for the first repeated VIN |
| Models.SerializeDate | src/izzy_uploader/models.py:164-165 | None stays None, and a date gives its ISO text |
| Models.FormatMoney | src/izzy_uploader/models.py:201-204 | the money text is plain fixed notation, never an exponent, and reads back as the same amount |
| Models.ToApiPayload | src/izzy_uploader/models.py:49-83 | the payload holds exactly the fields whose value is not None |
| Models.PayloadAlwaysSent | src/izzy_uploader/models.py:49-83 | the required fields are always in the payload |
| Models.PayloadRequiredValues | src/izzy_uploader/models.py:49-83 | the required text fields (VIN, category, make, model, fuel type, transmission type, drive wheels, type, colour) are sent under their keys with the vehicle's values |
| Models.PayloadRequiredNumbers | src/izzy_uploader/models.py:49-83 | the required numbers (manufacture year, mileage, power, cubic capacity) are sent under their keys with the vehicle's values |
| Models.PayloadOptionalTextKeys | src/izzy_uploader/models.py:49-83 | an optional text field is sent exactly when the vehicle has a value for it |
| Models.PayloadOptionalOtherKeys | src/izzy_uploader/models.py:49-83 | an optional number or date is sent exactly when the vehicle has a value for it |
| Models.PayloadOptionalTextValues | src/izzy_uploader/models.py:49-83 | each optional text field the vehicle has (configuration number, engine code, car class, description, registration number, location id) is sent with its value |
| Models.PayloadOptionalValues | src/izzy_uploader/models.py:49-83 | each optional number or date the vehicle has (doors, acceleration, available-from and first-registration dates) is sent with its value, dates as ISO text |
| Models.PayloadPrices | src/izzy_uploader/models.py:49-83 | both prices are sent as plain fixed-notation text, never an exponent, that reads back as the vehicle's amounts |
| Models.SortedUniqueBySet | src/izzy_uploader/models.py:122 | the missing-fields list depends only on which names occur, not on their order or repetition |
| Normalizers.PrepareValue | src/izzy_uploader/normalizers.py:60-66 | None gives "", any case of NULL gives "", otherwise the stripped value; the result has no whitespace at either end and is never NULL |
| Normalizers.PrepareValueIdempotent | src/izzy_uploader/normalizers.py:60-66 | preparing a prepared value changes nothing |
| Normalizers.RewriteEmpty | src/izzy_uploader/normalizers.py:98-102 | the rewritten text is empty exactly when the raw text is all spaces |
| Normalizers.RewriteKeeps | src/izzy_uploader/normalizers.py:98-102 | a text without spaces and commas is not changed |
| Normalizers.PrepareNumeric | src/izzy_uploader/normalizers.py:98-102 | spaces are dropped and commas become points; the result is None exactly when the text is all spaces |
| Normalizers.PrepareNumericIdempotent | src/izzy_uploader/normalizers.py:98-102 | preparing a prepared number changes nothing |
| Normalizers.NormaliseInteger | src/izzy_uploader/normalizers.py:69-81 | the rounded integer's text; input that is empty or does not parse gives "0" with `allow_zero` and "" without; zero gives "" without `allow_zero` |
| Normalizers.NormaliseIntegerOfText | src/izzy_uploader/normalizers.py:69-81 | the text of an integer normalises to itself, except "0" when zero is not allowed |
| Normalizers.NormaliseIntegerTwice | src/izzy_uploader/normalizers.py:69-81 | normalising a normalised integer keeps it, except that a "0" from rounding a small value is blanked the second time without `allow_zero` |
| Normalizers.NormaliseDecimalMeaning | src/izzy_uploader/normalizers.py:84-95 | input that does not parse gives ""; input that parses gives plain notation without trailing fractional zeros that reads back as the same value |
| Normalizers.NormaliseDate | src/izzy_uploader/normalizers.py:105-110 | the text up to the first space: a prefix of the input with no space |
| Normalizers.NormaliseDateIdempotent | src/izzy_uploader/normalizers.py:105-110 | cutting twice is cutting once |
| Normalizers.NormaliseKey | src/izzy_uploader/normalizers.py:152-158 | the key holds only `[a-z0-9]`; which characters of the folded, lower-cased text it keeps is pinned by the two `KeepKeyChars` lemmas below |
| Normalizers.KeepKeyCharsOne | src/izzy_uploader/normalizers.py:158 | `re.sub(r"[^a-z0-9]", "", ...)` on one character keeps it exactly when it is in `[a-z0-9]` |
| Normalizers.KeepKeyCharsAppend | src/izzy_uploader/normalizers.py:158 | the filter works piecewise: the characters kept from `a + b` are those kept from `a` followed by those kept from `b`, so every key character is kept, in order |
| Normalizers.KeepKeyCharsExample | src/izzy_uploader/normalizers.py:158 | "olej napedowy" reduces to the fuel table key "olejnapedowy" |
| Normalizers.NormaliseKeyOfKey | src/izzy_uploader/normalizers.py:152-158 | a key that the folding leaves alone is its own key |
| Normalizers.MapEnumCases | src/izzy_uploader/normalizers.py:113-126 | "" for an empty value; the table's value for a known key; otherwise the stripped, upper-cased input with `default_upper`, or "" without |
| Normalizers.MapEnumIgnoresAllowEmpty | src/izzy_uploader/normalizers.py:113-126 | `allow_empty` makes no difference to the result |
| Normalizers.MapEnumOfTableKey | src/izzy_uploader/normalizers.py:113-126 | every table key reaches its value |
| Normalizers.CategoryMapCanonical | src/izzy_uploader/normalizers.py:176-179 | every category alias maps to a non-empty upper-case word |
| Normalizers.FuelMapCanonical | src/izzy_uploader/normalizers.py:181-193 | every fuel alias maps to a non-empty upper-case word |
| Normalizers.TransmissionMapCanonical | src/izzy_uploader/normalizers.py:195-200 | every transmission alias maps to a non-empty upper-case word |
| Normalizers.DriveWheelsMapCanonical | src/izzy_uploader/normalizers.py:202-213 | every drive-wheels alias maps to a non-empty upper-case word |
| Normalizers.VehicleTypeMapCanonical | src/izzy_uploader/normalizers.py:215-224 | every vehicle-type alias maps to a non-empty upper-case word |
| Normalizers.CarClassMapCanonical | src/izzy_uploader/normalizers.py:226-231 | every car-class alias maps to a non-empty upper-case word |
| Normalizers.MappedEnumIsCanonical | src/izzy_uploader/normalizers.py:113-126 | with `default_upper`, a mapped enumeration is already stripped and upper-case, so `_normalise_enum` leaves it unchanged |
| Normalizers.MapLocation | src/izzy_uploader/normalizers.py:129-134 | the stripped partner id looked up in the location table, or "" when it is absent or empty |
| Normalizers.MapLocationIgnoresSpace | src/izzy_uploader/normalizers.py:129-134 | surrounding whitespace does not change the location found |
| Normalizers.NonBlankMembers | src/izzy_uploader/normalizers.py:161-173 | the kept parts are trimmed, and they are exactly the non-blank stripped pieces |
| Normalizers.NormaliseDescription | src/izzy_uploader/normalizers.py:161-173 | the loop with its `seen` set computes `DescriptionText`: split, strip, drop blank parts, drop case-insensitive repeats, join with new lines |
| Normalizers.DedupKeepsItems | src/izzy_uploader/normalizers.py:161-173 | every kept line is one of the input lines |
| Normalizers.DedupCovers | src/izzy_uploader/normalizers.py:161-173 | every line is represented: its lower-cased form is among those of the kept lines |
| Normalizers.DedupDistinct | src/izzy_uploader/normalizers.py:161-173 | no two kept lines are equal ignoring case |
| Normalizers.DedupKeepsFirst | src/izzy_uploader/normalizers.py:161-173 | each kept line is the first of its case-insensitive class |
| Normalizers.DedupPrefix | src/izzy_uploader/normalizers.py:161-173 | the input order is kept |
| Normalizers.Prepared | src/izzy_uploader/normalizers.py:21 | same keys, with every value prepared |
| Normalizers.KeyGroupsDisjoint | src/izzy_uploader/normalizers.py:23-55 | each key that `clean_row` rewrites belongs to exactly one of its steps |
| Normalizers.CleanEnums | src/izzy_uploader/normalizers.py:23-30 | sets exactly the enumeration keys, each to its table's reading of the value |
| Normalizers.CleanEngineCode | src/izzy_uploader/normalizers.py:32-33 | an empty engine code becomes "-", and nothing else changes |
| Normalizers.CleanIntegers | src/izzy_uploader/normalizers.py:35-38 | sets exactly the integer keys, with zero kept for the doors only |
| Normalizers.CleanDecimals | src/izzy_uploader/normalizers.py:40-44 | sets exactly the five amount keys to plain notation |
| Normalizers.CleanDates | src/izzy_uploader/normalizers.py:46-47 | sets exactly the two date keys, each cut at its first space |
| Normalizers.CleanDescription | src/izzy_uploader/normalizers.py:49-53 | an empty description stays empty, a present one is normalised, an absent one stays absent |
| Normalizers.CleanLocation | src/izzy_uploader/normalizers.py:55 | the location id is always set, to the mapped partner location |
| Normalizers.CleanRow | src/izzy_uploader/normalizers.py:18-57 | the cleaned row has every key of the row plus the keys `clean_row` always writes; untouched keys hold their prepared values; each group of keys follows its rule |
| Normalizers.CleanedUnique | src/izzy_uploader/normalizers.py:18-57 | the rules leave no freedom: a row has one cleaned form |
| Normalizers.CleanedDefaults | src/izzy_uploader/normalizers.py:32-38 | a cleaned row never has an empty engine code, and always has a doors value |
| CsvLoader.RawVinPresent | src/izzy_uploader/csv_loader.py:54 | the VIN an error reports (`RawVin`, read from the raw row) is None exactly when the `vin` cell is missing, empty or all whitespace; otherwise it is non-empty with no whitespace at either end |
| CsvLoader.CsvRowError.FormatForDisplay | src/izzy_uploader/csv_loader.py:29-33 | the display is "Wiersz " and the line number, followed by " (VIN: <vin>): <message>" when the VIN is non-empty and by ": <message>" otherwise |
| CsvLoader.LoadRow | src/izzy_uploader/csv_loader.py:48 | the row is cleaned (`clean_row`) and converted by `vehicle_from_row` as written (`FromRow`); the outcome is related to the raw row by `RowLoaded` |
| CsvLoader.Record | src/izzy_uploader/csv_loader.py:46-56 | after the row on line `n`, the vehicles and errors are `LoadFirst` of one more row |
| CsvLoader.LoadedSoFarStep | src/izzy_uploader/csv_loader.py:45-56 | one iteration moves the loop invariant on by one row |
| CsvLoader.LoadVehicles | src/izzy_uploader/csv_loader.py:36-58 | each row is cleaned and converted by `vehicle_from_row` as written, each error carries the row's raw VIN, and the result is `LoadFirst` of all rows, with line numbers counting from 2 |
| CsvLoader.LoadFirstExtends | src/izzy_uploader/csv_loader.py:45-56 | loading the first `m` rows does not depend on later rows |
| CsvLoader.LoadCounts | src/izzy_uploader/csv_loader.py:45-58 | every row ends up as exactly one vehicle or one error |
| CsvLoader.ErrorsReportFailures | src/izzy_uploader/csv_loader.py:49-56 | every error names the line of a failing row (row index + 2), its exception text and its raw VIN, and the line numbers strictly increase |
| CsvLoader.FailuresReported | src/izzy_uploader/csv_loader.py:49-56 | every failing row is reported on its own line |
| CsvLoader.VehiclesConverted | src/izzy_uploader/csv_loader.py:48 | every vehicle is the conversion of one of the rows |
| CsvLoader.ConvertedMembers | src/izzy_uploader/csv_loader.py:48 | a vehicle is among the converted ones exactly when some row converts to it |
| CsvLoader.VehiclesInOrder | src/izzy_uploader/csv_loader.py:45-58 | the vehicles returned are exactly those of the rows that convert, each once and in row order |
| CsvLoader.MappedEnumUnchanged | src/izzy_uploader/models.py:207-208 | an enumeration mapped with `default_upper` through a table of upper-case words passes `_normalise_enum` unchanged |
| CsvLoader.CleanedEnumsUnchanged | src/izzy_uploader/normalizers.py:23-30 | the category, fuel type, transmission type and vehicle type that `clean_row` writes pass `_normalise_enum` in `vehicle_from_row` unchanged |
| CsvLoader.NoErrorsIffAllConverted | src/izzy_uploader/csv_loader.py:45-58 | no error is reported exactly when every row converts |
| CsvLoader.AssertNoErrors | src/izzy_uploader/csv_loader.py:61-64 | raises exactly when there is an error; the exception's lines are the errors' displays, one per error and in order |
| CsvLoader.DisplayStart | src/izzy_uploader/csv_loader.py:29-33 | the display is "Wiersz ", the line number, then a non-digit |
| CsvLoader.DisplayNamesLine | src/izzy_uploader/csv_loader.py:29-33 | two errors that display alike are on the same line |
| CsvLoader.ValidationMessageLines | src/izzy_uploader/csv_loader.py:13-18 | the exception's message splits back into the displayed errors when none contains a new line |
| Pipeline.RemoteClient.BuildVehicleLookup | src/izzy_uploader/pipelines/import_pipeline.py:49 | returns the remote lookup, or the failure it raises, and logs the call |
| Pipeline.RemoteClient.Send | src/izzy_uploader/pipelines/import_pipeline.py:79 | logs the call; it raises exactly when the failure table lists it, with that text |
| Pipeline.PipelineReport.constructor | src/izzy_uploader/pipelines/import_pipeline.py:14-22 | all four counters are zero and there are no errors |
| Pipeline.PipelineReport.AsDict | src/izzy_uploader/pipelines/import_pipeline.py:24-31 | exactly five keys: the four counters under their names, and the number of errors |
| Pipeline.VehicleSynchronizer.constructor | src/izzy_uploader/pipelines/import_pipeline.py:37-38 | the synchronizer drives the given client |
| Pipeline.VehicleSynchronizer.HandleExistingVehicle | src/izzy_uploader/pipelines/import_pipeline.py:71-105 | the report and the call log move on as `ExistingVehicle` says: update, then a due price push; each success counts, and each failure adds its "update failed" or "price update failed" text |
| Pipeline.VehicleSynchronizer.HandleNewVehicle | src/izzy_uploader/pipelines/import_pipeline.py:107-113 | a create call: `created` goes up by one, or the "creation failed" text is added |
| Pipeline.VehicleSynchronizer.CloseVehicle | src/izzy_uploader/pipelines/import_pipeline.py:115-121 | a close call: `closed` goes up by one, or the "close failed" text is added |
| Pipeline.VehicleSynchronizer.SyncDesired | src/izzy_uploader/pipelines/import_pipeline.py:57-61 | the loop's effect is `SyncVehicles` over the vehicles in order |
| Pipeline.VehicleSynchronizer.CloseMissing | src/izzy_uploader/pipelines/import_pipeline.py:63-66 | each id to close is closed once, in some order, and the effect is `CloseAll` in that order |
| Pipeline.VehicleSynchronizer.Run | src/izzy_uploader/pipelines/import_pipeline.py:40-68 | a failed lookup gives a report with only that error and no other call; a repeated external id raises; otherwise the report is `Synced`, and the ids closed are exactly the remote ids that are not desired |
| Pipeline.ReplayCounts | src/izzy_uploader/pipelines/import_pipeline.py:71-121 | replaying calls logs them, counts each success under its kind, and counts each raised call as one error |
| Pipeline.ReplayAppend | src/izzy_uploader/pipelines/import_pipeline.py:57-66 | replaying two logs one after the other is replaying them joined |
| Pipeline.HandleReplays | src/izzy_uploader/pipelines/import_pipeline.py:57-61 | handling one vehicle is exactly replaying its calls: a create, or an update followed by a due price push |
| Pipeline.SyncVehiclesReplays | src/izzy_uploader/pipelines/import_pipeline.py:57-61 | the vehicle loop is the replay of the calls it makes |
| Pipeline.CloseAllReplays | src/izzy_uploader/pipelines/import_pipeline.py:63-66 | the close loop is the replay of its close calls |
| Pipeline.RunReplays | src/izzy_uploader/pipelines/import_pipeline.py:40-68 | a run whose lookup succeeds is the replay of the calls made after the lookup |
| Pipeline.FlatCallsHas | src/izzy_uploader/pipelines/import_pipeline.py:57-61 | a call is among those of the loop exactly when it is among those for one of the vehicles |
| Pipeline.RunCounts | src/izzy_uploader/pipelines/import_pipeline.py:40-68 | a run logs the lookup and then its calls; each counter is the number of successful calls of its kind, and the errors are the raised calls |
| Pipeline.RunRoutes | src/izzy_uploader/pipelines/import_pipeline.py:57-61 | a desired vehicle is updated exactly when its id is remote, and created exactly when it is not |
| Pipeline.RunPriceUpdates | src/izzy_uploader/pipelines/import_pipeline.py:86-105 | a price push is made exactly for the vehicles for which one is due, with the vehicle's sales price and the discount flag |
| Pipeline.CloseCallsCount | src/izzy_uploader/pipelines/import_pipeline.py:65-66 | with distinct ids, each listed id is closed once |
| Pipeline.RunCloses | src/izzy_uploader/pipelines/import_pipeline.py:63-66 | an id is closed exactly once when `close_missing` is set and the id is remote but not desired, and never otherwise |
| Pipeline.SyncVehiclesCounts | src/izzy_uploader/pipelines/import_pipeline.py:57-61 | each vehicle handled adds one to `created` or `updated`, unless its first call raises |
| Pipeline.CloseAllKeeps | src/izzy_uploader/pipelines/import_pipeline.py:63-66 | closing leaves `created` and `updated` unchanged |
| Pipeline.RunCreatedUpdated | src/izzy_uploader/pipelines/import_pipeline.py:40-68 | `created + updated` plus the vehicles whose first call raised is the number of desired vehicles |

## Left out

- File and network I/O is not modelled:
  - the CSV file is opened and read by `csv.DictReader`, and the model starts from the rows it yields;
  - the state file is read and written as text, and the model starts from the parsed JSON value or from the fact that the file is missing or unreadable;
  - the client's HTTP calls and authentication are replaced by the oracle described above.
- Configuration, the CLI, the web application and logging are not part of this model. They use the core but do not change what it computes.
- `_extract_price` is not modelled as a function. Its payload digging and `float` conversion are replaced by the lookup giving each id its optional price directly.
- `Vehicle.external_id`, `Vehicle.sales_price` as the pipeline reads it, `requires_price_discount_flag` and `unique_external_ids` are not in `models.py`. They are given through `VehicleView`, and `unique_external_ids` is assumed to reject a repeated id the way `unique_vins` rejects a repeated VIN.
- Floats are exact reals. Rounding to binary floating point, NaN and infinities are not modelled: `_parse_float` and `_extract_price` prices, and float comparison in `run`.
- Decimal context precision, signalling flags, NaN and infinite Decimals are not modelled. `Decimal(text)` is a given parser, and its results are finite Decimals.
- `date.fromisoformat`, `date.isoformat` and the NFKD folding in `_normalise_key` are given functions, not modelled.
- Case mapping is ASCII only. Python's full Unicode `upper()` and `lower()` are not modelled.
- `_location_map` is not modelled: reading the table from its file or environment variable, and its cache. The table is a parameter.
- Iteration order is not modelled:
  - `known_vins` is a set, not an ordered generator;
  - `_load` inserts the members in an order that is not fixed;
  - `to_close` is closed in a chosen order.
- Extra CSV fields that `csv.DictReader` collects under the `None` key are not modelled. Keys are always strings.
- The detailed form of `as_dict` that the web application uses is not part of this model.

## Findings

| source | as written | input that shows it | evidently intended | confidence | as-written member | corrected member |
|---|---|---|---|---|---|---|
| src/izzy_uploader/models.py:98-122 | each required numeric field is parsed right after `require`, before `missing` is checked, and `Decimal("")` raises | a row with every required field except `manufactureYear` is rejected with "Invalid integer value for 'manufactureYear': " | "Missing required CSV fields: manufactureYear", as for the textual fields | not executed | Models.MissingYearReportedAsInvalid | Models.FromRowReportingMissing |
