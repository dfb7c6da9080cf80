/**
 * The domain model (models.py): the `Vehicle` record, its conversion from a cleaned CSV
 * row, its API payload, the VIN de-duplication step and the small normalising helpers.
 */
module Models {
  import opened Wrappers
  import opened Text
  import opened Numeric

  datatype Date = Date(year: int, month: int, day: int)

  /** `date.fromisoformat(text)`: the date the text denotes, or None when it raises. */
  type DateSyntax = string -> Option<Date>

  /** `Vehicle`. Floats are kept as exact reals; prices stay Decimals. */
  datatype Vehicle = Vehicle(
    vin: string,
    category: string,
    make: string,
    model: string,
    manufactureYear: int,
    mileage: int,
    engineCode: Option<string>,
    cubicCapacity: real,
    acceleration: Option<real>,
    fuelType: string,
    power: int,
    transmissionType: string,
    driveWheels: string,
    vehicleType: string,
    doors: Option<int>,
    color: string,
    listPrice: Decimal,
    salesPrice: Decimal,
    configurationNumber: Option<string>,
    carClass: Option<string>,
    availableFrom: Option<Date>,
    firstRegistrationDate: Option<Date>,
    description: Option<string>,
    registrationNumber: Option<string>,
    locationId: Option<string>,
    carId: Option<string>)

  /** The `ValueError`s raised while converting a row, with the text `str(exc)` gives. */
  datatype RowError =
    | MissingFields(names: seq<string>)
    | InvalidInteger(field: string, text: string)
    | InvalidNumber(field: string, text: string)
    | InvalidMoney(field: string, text: string)
    | InvalidDate(text: string)
  {
    function Message(): string {
      match this
      case MissingFields(names) => "Missing required CSV fields: " + Join(", ", names)
      case InvalidInteger(field, text) => "Invalid integer value for '" + field + "': " + text
      case InvalidNumber(field, text) => "Invalid numeric value for '" + field + "': " + text
      case InvalidMoney(field, text) => "Invalid monetary value for '" + field + "': " + text
      case InvalidDate(text) => "Invalid date value: " + text
    }
  }

  // ---------------------------------------------------------------- normalising helpers

  /** `_normalise_enum`: `value.strip().upper()`. */
  function NormaliseEnum(value: string): (r: string)
    ensures forall i :: 0 <= i < |r| ==> !('a' <= r[i] <= 'z')
    ensures r == [] || (!IsSpace(r[0]) && !IsSpace(r[|r| - 1]))
    ensures r == [] <==> Strip(value) == []
    ensures |r| == |Strip(value)| && Lower(r) == Lower(Strip(value))
  {
    UpperKeepsSpace(Strip(value));
    LowerOfUpper(Strip(value));
    Upper(Strip(value))
  }

  /** `_normalise_optional_enum`: None for a missing or blank value. */
  function NormaliseOptionalEnum(value: Option<string>): (r: Option<string>)
    ensures r.None? <==> value.None? || Strip(value.value) == ""
    ensures r.Some? ==> r.value == NormaliseEnum(value.value) && r.value != ""
  {
    if value.None? || Strip(value.value) == "" then None else Some(NormaliseEnum(value.value))
  }

  /** The alias table of `_normalise_drive_wheels`. */
  const DriveWheelAliases: map<string, string> := map[
    "4x4" := "FOUR", "4wd" := "FOUR", "awd" := "FOUR", "four" := "FOUR",
    "front" := "FRONT", "fwd" := "FRONT",
    "rear" := "REAR", "rwd" := "REAR", "back" := "REAR"]

  /**
   * `_normalise_drive_wheels`: a known alias, compared after stripping and lower-casing,
   * becomes FOUR, FRONT or REAR; anything else is stripped and upper-cased.
   */
  function NormaliseDriveWheels(value: string): (r: string)
    ensures Lower(Strip(value)) in DriveWheelAliases ==> r == DriveWheelAliases[Lower(Strip(value))]
    ensures Lower(Strip(value)) !in DriveWheelAliases ==> r == NormaliseEnum(value)
    ensures forall i :: 0 <= i < |r| ==> !('a' <= r[i] <= 'z')
  {
    var cleaned := Lower(Strip(value));
    if cleaned in DriveWheelAliases then
      DriveWheelTargets();
      DriveWheelAliases[cleaned]
    else NormaliseEnum(value)
  }

  /** The aliases lead to FOUR, FRONT and REAR, which are upper case already. */
  lemma DriveWheelTargets()
    ensures forall k :: k in DriveWheelAliases ==> DriveWheelAliases[k] in {"FOUR", "FRONT", "REAR"}
    ensures forall k :: k in DriveWheelAliases ==> Upper(DriveWheelAliases[k]) == DriveWheelAliases[k]
  {
    UpperUnchanged("FOUR");
    UpperUnchanged("FRONT");
    UpperUnchanged("REAR");
  }

  /** Two spellings that differ only in case and surrounding whitespace normalise alike. */
  lemma DriveWheelsIgnoreCaseAndSpace(a: string, b: string)
    requires Lower(Strip(a)) == Lower(Strip(b))
    requires Lower(Strip(a)) in DriveWheelAliases
    ensures NormaliseDriveWheels(a) == NormaliseDriveWheels(b)
  {
  }

  /** `_parse_date`: None or "" parse to None; other text must be an ISO date. */
  function ParseDate(dates: DateSyntax, value: Option<string>): (r: Result<Option<Date>, RowError>)
    ensures value.None? || value.value == "" ==> r == Success(None)
    ensures r.Failure? ==> r.error == InvalidDate(value.value)
    ensures r.Success? && r.value.Some? ==> value.Some? && dates(value.value) == r.value
    ensures value.Some? && value.value != "" ==> (r.Failure? <==> dates(value.value).None?)
    ensures value.Some? && value.value != "" && dates(value.value).Some? ==> r == Success(dates(value.value))
  {
    if value.None? || value.value == "" then Success(None)
    else match dates(value.value)
      case Some(d) => Success(Some(d))
      case None => Failure(InvalidDate(value.value))
  }

  /** `_parse_int`: `Decimal(text)` rounded half up. */
  function ParseInt(syntax: DecimalSyntax, text: string, field: string): (r: Result<int, RowError>)
    ensures r.Failure? <==> ParseDecimal(syntax, text).None?
    ensures r.Failure? ==> r.error == InvalidInteger(field, text)
    ensures r.Success? ==> r.value == RoundHalfUp(ParseDecimal(syntax, text).value.Value())
  {
    match ParseDecimal(syntax, text)
    case Some(d) => Success(RoundHalfUp(d.Value()))
    case None => Failure(InvalidInteger(field, text))
  }

  /** `_parse_float` (the float conversion itself is treated as exact). */
  function ParseNumber(syntax: DecimalSyntax, text: string, field: string): (r: Result<real, RowError>)
    ensures r.Failure? <==> ParseDecimal(syntax, text).None?
    ensures r.Failure? ==> r.error == InvalidNumber(field, text)
    ensures r.Success? ==> r.value == ParseDecimal(syntax, text).value.Value()
  {
    match ParseDecimal(syntax, text)
    case Some(d) => Success(d.Value())
    case None => Failure(InvalidNumber(field, text))
  }

  /** `_parse_decimal` */
  function ParseMoney(syntax: DecimalSyntax, text: string, field: string): (r: Result<Decimal, RowError>)
    ensures r.Failure? <==> ParseDecimal(syntax, text).None?
    ensures r.Failure? ==> r.error == InvalidMoney(field, text)
    ensures r.Success? ==> r.value == ParseDecimal(syntax, text).value
  {
    match ParseDecimal(syntax, text)
    case Some(d) => Success(d)
    case None => Failure(InvalidMoney(field, text))
  }

  // ---------------------------------------------------------------- vehicle_from_row

  /** `row.get(key)` */
  function Lookup(row: map<string, string>, key: string): Option<string> {
    if key in row then Some(row[key]) else None
  }

  /** What `require(key)` returns: the value, or "" when it is missing or empty. */
  function Required(row: map<string, string>, key: string): string {
    if key in row then row[key] else ""
  }

  /** `row.get(key) or None` */
  function NonEmpty(row: map<string, string>, key: string): (r: Option<string>)
    ensures r.None? <==> Required(row, key) == ""
    ensures r.Some? ==> r.value == row[key]
  {
    if key in row && row[key] != "" then Some(row[key]) else None
  }

  /** The keys `vehicle_from_row` passes to `require`, in call order. */
  const RequiredKeys: seq<string> := [
    "vin", "category", "make", "model", "manufactureYear", "mileage", "cubicCapacity",
    "fuelType", "power", "transmissionType", "driveWheels", "type", "color",
    "pricing_listPrice", "pricing_salesPrice"]

  /** The required keys whose value is not parsed as a number. */
  const TextualRequiredKeys: set<string> := {
    "vin", "category", "make", "model", "fuelType", "transmissionType", "driveWheels", "type", "color"}

  /** The `keys` that `require` would report missing from `row`, in order. */
  function MissingAmong(row: map<string, string>, keys: seq<string>): (r: seq<string>)
    ensures forall k :: k in r <==> k in keys && Required(row, k) == ""
  {
    if keys == [] then []
    else
      var last := keys[|keys| - 1];
      MissingAmong(row, keys[..|keys| - 1]) + (if Required(row, last) == "" then [last] else [])
  }

  /** The `doors` rule: an empty value and a value that rounds to 0 both give None. */
  function ParseDoors(syntax: DecimalSyntax, text: string): (r: Result<Option<int>, RowError>)
    ensures text == "" ==> r == Success(None)
    ensures r.Success? && r.value.Some? ==> r.value.value != 0
    ensures text != "" ==> (r.Failure? <==> ParseDecimal(syntax, text).None?)
    ensures r.Failure? ==> r.error == InvalidInteger("doors", text)
    ensures text != "" && ParseDecimal(syntax, text).Some? ==>
      var n := RoundHalfUp(ParseDecimal(syntax, text).value.Value());
      r == Success(if n == 0 then None else Some(n))
  {
    if text == "" then Success(None)
    else match ParseInt(syntax, text, "doors")
      case Failure(e) => Failure(e)
      case Success(d) => Success(if d == 0 then None else Some(d))
  }

  /** The locals `vehicle_from_row` has set by the end of line 107 (`acceleration`). */
  datatype HeadFields = HeadFields(
    vin: string,
    category: string,
    make: string,
    model: string,
    manufactureYear: int,
    mileage: int,
    engineCode: Option<string>,
    cubicCapacity: real,
    acceleration: real)

  /** The locals `vehicle_from_row` sets on lines 108-119. */
  datatype TailFields = TailFields(
    fuelType: string,
    power: int,
    transmissionType: string,
    driveWheels: string,
    vehicleType: string,
    doors: Option<int>,
    color: string,
    listPrice: Decimal,
    salesPrice: Decimal)

  /** Lines 98-107: the first numeric field that does not parse raises. */
  function ReadHead(row: map<string, string>, syntax: DecimalSyntax): Result<HeadFields, RowError> {
    var manufactureYear :- ParseInt(syntax, Required(row, "manufactureYear"), "manufactureYear");
    var mileage :- ParseInt(syntax, Required(row, "mileage"), "mileage");
    var cubicCapacity :- ParseNumber(syntax, Required(row, "cubicCapacity"), "cubicCapacity");
    var rawAcceleration := Required(row, "acceleration");
    var acceleration :- if rawAcceleration == "" then Success(0.0) else ParseNumber(syntax, rawAcceleration, "acceleration");
    Success(HeadFields(
      Required(row, "vin"), NormaliseEnum(Required(row, "category")), Required(row, "make"), Required(row, "model"),
      manufactureYear, mileage, NonEmpty(row, "engineCode"), cubicCapacity, acceleration))
  }

  /** Lines 108-119, read after the head. */
  function ReadTail(row: map<string, string>, syntax: DecimalSyntax): Result<TailFields, RowError> {
    var power :- ParseInt(syntax, Required(row, "power"), "power");
    var doors :- ParseDoors(syntax, Required(row, "doors"));
    var listPrice :- ParseMoney(syntax, Required(row, "pricing_listPrice"), "pricing_listPrice");
    var salesPrice :- ParseMoney(syntax, Required(row, "pricing_salesPrice"), "pricing_salesPrice");
    Success(TailFields(
      NormaliseEnum(Required(row, "fuelType")), power, NormaliseEnum(Required(row, "transmissionType")),
      NormaliseDriveWheels(Required(row, "driveWheels")), NormaliseEnum(Required(row, "type")),
      doors, Required(row, "color"), listPrice, salesPrice))
  }

  /**
   * `vehicle_from_row`: the head and then the tail are read (the first field that does not
   * parse raises), then `Assemble` finishes the row.
   */
  function FromRow(row: map<string, string>, syntax: DecimalSyntax, dates: DateSyntax): Result<Vehicle, RowError> {
    var h :- ReadHead(row, syntax);
    var t :- ReadTail(row, syntax);
    Assemble(row, h, t, dates)
  }

  /**
   * Lines 121-150: the collected missing names are reported (sorted, without repeats);
   * otherwise the optional fields and the dates are read and the vehicle is built.
   */
  function Assemble(row: map<string, string>, h: HeadFields, t: TailFields, dates: DateSyntax): Result<Vehicle, RowError> {
    var missing := MissingAmong(row, RequiredKeys);
    if missing != [] then Failure(MissingFields(SortedUnique(missing)))
    else
      var availableFrom :- ParseDate(dates, Lookup(row, "availableFrom"));
      var firstRegistrationDate :- ParseDate(dates, Lookup(row, "firstRegistrationDate"));
      Success(Vehicle(
        vin := h.vin,
        category := h.category,
        make := h.make,
        model := h.model,
        manufactureYear := h.manufactureYear,
        mileage := h.mileage,
        engineCode := h.engineCode,
        cubicCapacity := h.cubicCapacity,
        acceleration := Some(h.acceleration),
        fuelType := t.fuelType,
        power := t.power,
        transmissionType := t.transmissionType,
        driveWheels := t.driveWheels,
        vehicleType := t.vehicleType,
        doors := t.doors,
        color := t.color,
        listPrice := t.listPrice,
        salesPrice := t.salesPrice,
        configurationNumber := NonEmpty(row, "configurationNumber"),
        carClass := NormaliseOptionalEnum(Lookup(row, "carClass")),
        availableFrom := availableFrom,
        firstRegistrationDate := firstRegistrationDate,
        description := NonEmpty(row, "description"),
        registrationNumber := NonEmpty(row, "registrationNumber"),
        locationId := NonEmpty(row, "locationId"),
        carId := None))
  }

  /**
   * `require(key)`: the value, appending `key` to `missing` when it is absent or empty.
   * `seen` (ghost) lists the keys required so far; `missing` holds the missing ones among them.
   */
  method Require(row: map<string, string>, key: string, missing: seq<string>, ghost seen: seq<string>)
    returns (value: string, missing': seq<string>)
    requires missing == MissingAmong(row, seen)
    ensures value == Required(row, key)
    ensures value == "" <==> key !in row || row[key] == ""
    ensures missing' == MissingAmong(row, seen + [key])
  {
    assert (seen + [key])[..|seen|] == seen;
    if key !in row || row[key] == "" {
      return "", missing + [key];
    }
    return row[key], missing;
  }

  /** The first seven required keys, one `require` call at a time. */
  lemma HeadKeysInCallOrder()
    ensures [] + ["vin"] + ["category"] + ["make"] + ["model"] + ["manufactureYear"] + ["mileage"]
      + ["cubicCapacity"] == RequiredKeys[..7]
  {
  }

  /** The remaining required keys, one `require` call at a time. */
  lemma TailKeysInCallOrder()
    ensures RequiredKeys[..7] + ["fuelType"] + ["power"] + ["transmissionType"] + ["driveWheels"]
      + ["type"] + ["color"] + ["pricing_listPrice"] + ["pricing_salesPrice"] == RequiredKeys
  {
  }

  /** Lines 89-107: `require` fills `missing` while the head fields are read. */
  method ReadRowHead(row: map<string, string>, syntax: DecimalSyntax) returns (r: Result<HeadFields, RowError>, missing: seq<string>)
    ensures r == ReadHead(row, syntax)
    ensures r.Success? ==> missing == MissingAmong(row, RequiredKeys[..7])
  {
    missing := [];
    ghost var seen: seq<string> := [];
    var vin, category, make, model, yearText, mileageText, capacityText: string;
    vin, missing := Require(row, "vin", missing, seen);
    seen := seen + ["vin"];
    category, missing := Require(row, "category", missing, seen);
    seen := seen + ["category"];
    make, missing := Require(row, "make", missing, seen);
    seen := seen + ["make"];
    model, missing := Require(row, "model", missing, seen);
    seen := seen + ["model"];
    yearText, missing := Require(row, "manufactureYear", missing, seen);
    seen := seen + ["manufactureYear"];
    var manufactureYear := ParseInt(syntax, yearText, "manufactureYear");
    if manufactureYear.Failure? {
      return Failure(manufactureYear.error), missing;
    }
    mileageText, missing := Require(row, "mileage", missing, seen);
    seen := seen + ["mileage"];
    var mileage := ParseInt(syntax, mileageText, "mileage");
    if mileage.Failure? {
      return Failure(mileage.error), missing;
    }
    var engineCode := NonEmpty(row, "engineCode");
    capacityText, missing := Require(row, "cubicCapacity", missing, seen);
    seen := seen + ["cubicCapacity"];
    var cubicCapacity := ParseNumber(syntax, capacityText, "cubicCapacity");
    if cubicCapacity.Failure? {
      return Failure(cubicCapacity.error), missing;
    }
    var rawAcceleration := Required(row, "acceleration");
    var acceleration := 0.0;
    if rawAcceleration != "" {
      var parsed := ParseNumber(syntax, rawAcceleration, "acceleration");
      if parsed.Failure? {
        return Failure(parsed.error), missing;
      }
      acceleration := parsed.value;
    }
    HeadKeysInCallOrder();
    r := Success(HeadFields(
      vin, NormaliseEnum(category), make, model, manufactureYear.value, mileage.value, engineCode,
      cubicCapacity.value, acceleration));
  }

  /** Lines 108-119: the remaining `require` calls extend `missing`. */
  method ReadRowTail(row: map<string, string>, syntax: DecimalSyntax, missing: seq<string>)
    returns (r: Result<TailFields, RowError>, missing': seq<string>)
    requires missing == MissingAmong(row, RequiredKeys[..7])
    ensures r == ReadTail(row, syntax)
    ensures r.Success? ==> missing' == MissingAmong(row, RequiredKeys)
  {
    missing' := missing;
    ghost var seen: seq<string> := RequiredKeys[..7];
    var fuelType, powerText, transmissionType, driveWheels, vehicleType, color, listText, salesText: string;
    fuelType, missing' := Require(row, "fuelType", missing', seen);
    seen := seen + ["fuelType"];
    powerText, missing' := Require(row, "power", missing', seen);
    seen := seen + ["power"];
    var power := ParseInt(syntax, powerText, "power");
    if power.Failure? {
      return Failure(power.error), missing';
    }
    transmissionType, missing' := Require(row, "transmissionType", missing', seen);
    seen := seen + ["transmissionType"];
    driveWheels, missing' := Require(row, "driveWheels", missing', seen);
    seen := seen + ["driveWheels"];
    vehicleType, missing' := Require(row, "type", missing', seen);
    seen := seen + ["type"];
    var doors := ParseDoors(syntax, Required(row, "doors"));
    if doors.Failure? {
      return Failure(doors.error), missing';
    }
    color, missing' := Require(row, "color", missing', seen);
    seen := seen + ["color"];
    listText, missing' := Require(row, "pricing_listPrice", missing', seen);
    seen := seen + ["pricing_listPrice"];
    var listPrice := ParseMoney(syntax, listText, "pricing_listPrice");
    if listPrice.Failure? {
      return Failure(listPrice.error), missing';
    }
    salesText, missing' := Require(row, "pricing_salesPrice", missing', seen);
    seen := seen + ["pricing_salesPrice"];
    var salesPrice := ParseMoney(syntax, salesText, "pricing_salesPrice");
    if salesPrice.Failure? {
      return Failure(salesPrice.error), missing';
    }
    TailKeysInCallOrder();
    r := Success(TailFields(
      NormaliseEnum(fuelType), power.value, NormaliseEnum(transmissionType), NormaliseDriveWheels(driveWheels),
      NormaliseEnum(vehicleType), doors.value, color, listPrice.value, salesPrice.value));
  }

  /** `vehicle_from_row` */
  method VehicleFromRow(row: map<string, string>, syntax: DecimalSyntax, dates: DateSyntax) returns (r: Result<Vehicle, RowError>)
    ensures r == FromRow(row, syntax, dates)
  {
    var head, missing := ReadRowHead(row, syntax);
    if head.Failure? {
      return Failure(head.error);
    }
    var h := head.value;
    var tail;
    tail, missing := ReadRowTail(row, syntax, missing);
    if tail.Failure? {
      return Failure(tail.error);
    }
    var t := tail.value;
    if missing != [] {
      return Failure(MissingFields(SortedUnique(missing)));
    }
    var availableFrom := ParseDate(dates, Lookup(row, "availableFrom"));
    if availableFrom.Failure? {
      return Failure(availableFrom.error);
    }
    var firstRegistrationDate := ParseDate(dates, Lookup(row, "firstRegistrationDate"));
    if firstRegistrationDate.Failure? {
      return Failure(firstRegistrationDate.error);
    }
    r := Success(Vehicle(
      vin := h.vin,
      category := h.category,
      make := h.make,
      model := h.model,
      manufactureYear := h.manufactureYear,
      mileage := h.mileage,
      engineCode := h.engineCode,
      cubicCapacity := h.cubicCapacity,
      acceleration := Some(h.acceleration),
      fuelType := t.fuelType,
      power := t.power,
      transmissionType := t.transmissionType,
      driveWheels := t.driveWheels,
      vehicleType := t.vehicleType,
      doors := t.doors,
      color := t.color,
      listPrice := t.listPrice,
      salesPrice := t.salesPrice,
      configurationNumber := NonEmpty(row, "configurationNumber"),
      carClass := NormaliseOptionalEnum(Lookup(row, "carClass")),
      availableFrom := availableFrom.value,
      firstRegistrationDate := firstRegistrationDate.value,
      description := NonEmpty(row, "description"),
      registrationNumber := NonEmpty(row, "registrationNumber"),
      locationId := NonEmpty(row, "locationId"),
      carId := None));
  }

  // ---------------------------------------------------------------- what vehicle_from_row promises

  /** A row is rejected whenever one of the required keys is absent or empty. */
  lemma MissingRequiredRejected(row: map<string, string>, syntax: DecimalSyntax, dates: DateSyntax, key: string)
    requires key in RequiredKeys && Required(row, key) == ""
    ensures FromRow(row, syntax, dates).Failure?
  {
    if ReadHead(row, syntax).Success? && ReadTail(row, syntax).Success? {
      assert key in MissingAmong(row, RequiredKeys);
    }
  }

  /** `Assemble` reports a missing-fields error only for the missing names it collected. */
  lemma AssembleMissing(row: map<string, string>, h: HeadFields, t: TailFields, dates: DateSyntax)
    ensures var r := Assemble(row, h, t, dates);
      r.Failure? && r.error.MissingFields? ==>
        var missing := MissingAmong(row, RequiredKeys);
        missing != [] && r.error.names == SortedUnique(missing)
  {
  }

  /** The missing names are reported sorted, each once, and they are exactly the missing required keys. */
  lemma MissingFieldsReport(row: map<string, string>, syntax: DecimalSyntax, dates: DateSyntax)
    ensures var r := FromRow(row, syntax, dates);
      r.Failure? && r.error.MissingFields? ==>
        && StrictlySorted(r.error.names) && r.error.names != []
        && (forall k :: k in r.error.names <==> k in RequiredKeys && Required(row, k) == "")
        && exists k :: k in RequiredKeys && Required(row, k) == ""
  {
    var r := FromRow(row, syntax, dates);
    if r.Failure? && r.error.MissingFields? {
      var h := ReadHead(row, syntax);
      var t := ReadTail(row, syntax);
      assert h.Success? && t.Success?;
      assert r == Assemble(row, h.value, t.value, dates);
      AssembleMissing(row, h.value, t.value, dates);
      var missing := MissingAmong(row, RequiredKeys);
      assert missing[0] in missing;
      assert missing[0] in r.error.names;
    }
  }

  /** An accepted row has a non-empty value for every required key. */
  lemma AcceptedRowIsComplete(row: map<string, string>, syntax: DecimalSyntax, dates: DateSyntax)
    ensures FromRow(row, syntax, dates).Success? ==> forall k :: k in RequiredKeys ==> k in row && row[k] != ""
  {
    if FromRow(row, syntax, dates).Success? {
      forall k | k in RequiredKeys
        ensures k in row && row[k] != ""
      {
        if Required(row, k) == "" {
          MissingRequiredRejected(row, syntax, dates, k);
        }
      }
    }
  }

  /** The text fields `ReadHead` reads. */
  lemma HeadText(row: map<string, string>, syntax: DecimalSyntax)
    ensures var h := ReadHead(row, syntax);
      h.Success? ==>
        && h.value.vin == Required(row, "vin") && h.value.make == Required(row, "make")
        && h.value.model == Required(row, "model") && h.value.category == NormaliseEnum(Required(row, "category"))
        && h.value.engineCode == NonEmpty(row, "engineCode")
        && (Required(row, "acceleration") == "" ==> h.value.acceleration == 0.0)
  {
  }

  /** The text fields `ReadTail` reads. */
  lemma TailText(row: map<string, string>, syntax: DecimalSyntax)
    ensures var t := ReadTail(row, syntax);
      t.Success? ==>
        && t.value.color == Required(row, "color") && t.value.fuelType == NormaliseEnum(Required(row, "fuelType"))
        && t.value.transmissionType == NormaliseEnum(Required(row, "transmissionType"))
        && t.value.vehicleType == NormaliseEnum(Required(row, "type"))
        && t.value.driveWheels == NormaliseDriveWheels(Required(row, "driveWheels"))
  {
    var t := ReadTail(row, syntax);
    if t.Success? {
      var power := ParseInt(syntax, Required(row, "power"), "power");
      var doors := ParseDoors(syntax, Required(row, "doors"));
      var listPrice := ParseMoney(syntax, Required(row, "pricing_listPrice"), "pricing_listPrice");
      var salesPrice := ParseMoney(syntax, Required(row, "pricing_salesPrice"), "pricing_salesPrice");
      assert power.Success? && doors.Success? && listPrice.Success? && salesPrice.Success?;
      assert t.value == TailFields(
        NormaliseEnum(Required(row, "fuelType")), power.value, NormaliseEnum(Required(row, "transmissionType")),
        NormaliseDriveWheels(Required(row, "driveWheels")), NormaliseEnum(Required(row, "type")),
        doors.value, Required(row, "color"), listPrice.value, salesPrice.value);
    }
  }

  /** The doors `ReadTail` reads: never `Some(0)`, and None when the value is empty. */
  lemma TailDoors(row: map<string, string>, syntax: DecimalSyntax)
    ensures var t := ReadTail(row, syntax);
      t.Success? ==> t.value.doors != Some(0) && (Required(row, "doors") == "" ==> t.value.doors.None?)
  {
  }

  /** What `Assemble` copies into an accepted vehicle. */
  lemma AssembledFields(row: map<string, string>, h: HeadFields, t: TailFields, dates: DateSyntax)
    ensures var r := Assemble(row, h, t, dates);
      r.Success? ==>
        && r.value.vin == h.vin && r.value.make == h.make && r.value.model == h.model
        && r.value.category == h.category && r.value.engineCode == h.engineCode
        && r.value.acceleration == Some(h.acceleration)
        && r.value.color == t.color && r.value.fuelType == t.fuelType
        && r.value.transmissionType == t.transmissionType && r.value.vehicleType == t.vehicleType
        && r.value.driveWheels == t.driveWheels && r.value.doors == t.doors
        && r.value.carId.None?
        && r.value.configurationNumber == NonEmpty(row, "configurationNumber")
        && r.value.description == NonEmpty(row, "description")
        && r.value.registrationNumber == NonEmpty(row, "registrationNumber")
        && r.value.locationId == NonEmpty(row, "locationId")
        && (Required(row, "availableFrom") == "" ==> r.value.availableFrom.None?)
        && (Required(row, "firstRegistrationDate") == "" ==> r.value.firstRegistrationDate.None?)
  {
  }

  /** An accepted vehicle is assembled from the head, the tail and the optional fields. */
  lemma AcceptedRowParts(row: map<string, string>, syntax: DecimalSyntax, dates: DateSyntax)
    ensures var r := FromRow(row, syntax, dates);
      r.Success? ==>
        var h := ReadHead(row, syntax); var t := ReadTail(row, syntax);
        && h.Success? && t.Success?
        && r == Assemble(row, h.value, t.value, dates)
  {
  }

  /** The text fields of an accepted row: copied, or normalised as enumerations; no car id yet. */
  lemma AcceptedRowText(row: map<string, string>, syntax: DecimalSyntax, dates: DateSyntax)
    ensures var r := FromRow(row, syntax, dates);
      r.Success? ==>
        && r.value.vin == Required(row, "vin") && r.value.make == Required(row, "make")
        && r.value.model == Required(row, "model") && r.value.color == Required(row, "color")
        && r.value.category == NormaliseEnum(Required(row, "category"))
        && r.value.fuelType == NormaliseEnum(Required(row, "fuelType"))
        && r.value.transmissionType == NormaliseEnum(Required(row, "transmissionType"))
        && r.value.vehicleType == NormaliseEnum(Required(row, "type"))
        && r.value.driveWheels == NormaliseDriveWheels(Required(row, "driveWheels"))
        && r.value.carId.None?
  {
    AcceptedRowParts(row, syntax, dates);
    if ReadHead(row, syntax).Success? && ReadTail(row, syntax).Success? {
      AssembledFields(row, ReadHead(row, syntax).value, ReadTail(row, syntax).value, dates);
    }
    HeadText(row, syntax);
    TailText(row, syntax);
  }

  /** The optional fields of an accepted row: empty means None, and the doors rule. */
  lemma AcceptedRowOptional(row: map<string, string>, syntax: DecimalSyntax, dates: DateSyntax)
    ensures var r := FromRow(row, syntax, dates);
      r.Success? ==>
        && r.value.doors != Some(0)
        && (Required(row, "doors") == "" ==> r.value.doors.None?)
        && (r.value.engineCode.None? <==> Required(row, "engineCode") == "")
        && (r.value.configurationNumber.None? <==> Required(row, "configurationNumber") == "")
        && (r.value.description.None? <==> Required(row, "description") == "")
        && (r.value.registrationNumber.None? <==> Required(row, "registrationNumber") == "")
        && (r.value.locationId.None? <==> Required(row, "locationId") == "")
        && (Required(row, "availableFrom") == "" ==> r.value.availableFrom.None?)
        && (Required(row, "firstRegistrationDate") == "" ==> r.value.firstRegistrationDate.None?)
        && (Required(row, "acceleration") == "" ==> r.value.acceleration == Some(0.0))
  {
    AcceptedRowParts(row, syntax, dates);
    if ReadHead(row, syntax).Success? && ReadTail(row, syntax).Success? {
      AssembledFields(row, ReadHead(row, syntax).value, ReadTail(row, syntax).value, dates);
    }
    HeadText(row, syntax);
    TailDoors(row, syntax);
  }

  /**
   * As written, `vehicle_from_row` parses the numeric fields before it looks at `missing`,
   * so a missing number surfaces as an unparsable one: an absent `manufactureYear` gives
   * "Invalid integer value for 'manufactureYear': " and is never listed as missing.
   */
  lemma MissingYearReportedAsInvalid(row: map<string, string>, syntax: DecimalSyntax, dates: DateSyntax)
    requires Required(row, "manufactureYear") == ""
    ensures FromRow(row, syntax, dates) == Failure(InvalidInteger("manufactureYear", ""))
  {
  }

  /** `ReadHead` gets past its numeric fields only when they are present. */
  lemma HeadNumbersPresent(row: map<string, string>, syntax: DecimalSyntax)
    ensures ReadHead(row, syntax).Success? ==>
      Required(row, "manufactureYear") != "" && Required(row, "mileage") != "" && Required(row, "cubicCapacity") != ""
  {
  }

  /** `ReadTail` gets past its numeric fields only when they are present. */
  lemma TailNumbersPresent(row: map<string, string>, syntax: DecimalSyntax)
    ensures ReadTail(row, syntax).Success? ==>
      Required(row, "power") != "" && Required(row, "pricing_listPrice") != "" && Required(row, "pricing_salesPrice") != ""
  {
  }

  /** A missing-fields report comes after both the head and the tail were read. */
  lemma MissingFieldsAfterParts(row: map<string, string>, syntax: DecimalSyntax, dates: DateSyntax)
    ensures var r := FromRow(row, syntax, dates);
      r.Failure? && r.error.MissingFields? ==> ReadHead(row, syntax).Success? && ReadTail(row, syntax).Success?
  {
  }

  /** The required keys other than the six numeric ones are the textual ones. */
  lemma TextualKeysAreTheRest(k: string)
    requires k in RequiredKeys
    requires k != "manufactureYear" && k != "mileage" && k != "cubicCapacity"
    requires k != "power" && k != "pricing_listPrice" && k != "pricing_salesPrice"
    ensures k in TextualRequiredKeys
  {
  }

  /** As written, only the textual required keys can ever be reported as missing. */
  lemma OnlyTextualKeysReportedMissing(row: map<string, string>, syntax: DecimalSyntax, dates: DateSyntax)
    ensures var r := FromRow(row, syntax, dates);
      r.Failure? && r.error.MissingFields? ==> forall k :: k in r.error.names ==> k in TextualRequiredKeys
  {
    var r := FromRow(row, syntax, dates);
    if r.Failure? && r.error.MissingFields? {
      MissingFieldsReport(row, syntax, dates);
      MissingFieldsAfterParts(row, syntax, dates);
      HeadNumbersPresent(row, syntax);
      TailNumbersPresent(row, syntax);
      forall k | k in r.error.names
        ensures k in TextualRequiredKeys
      {
        TextualKeysAreTheRest(k);
      }
    }
  }

  /**
   * `vehicle_from_row` with the missing check moved ahead of the numeric parsing, as its
   * error message evidently intends: every missing required key is reported as missing.
   */
  function FromRowReportingMissing(row: map<string, string>, syntax: DecimalSyntax, dates: DateSyntax): (r: Result<Vehicle, RowError>)
    ensures r.Failure? && r.error.MissingFields? <==> exists k :: k in RequiredKeys && Required(row, k) == ""
    ensures r.Failure? && r.error.MissingFields? ==>
      StrictlySorted(r.error.names) && forall k :: k in r.error.names <==> k in RequiredKeys && Required(row, k) == ""
    ensures (forall k :: k in RequiredKeys ==> Required(row, k) != "") ==> r == FromRow(row, syntax, dates)
  {
    var missing := MissingAmong(row, RequiredKeys);
    if missing != [] then
      assert missing[0] in missing;
      Failure(MissingFields(SortedUnique(missing)))
    else
      MissingFieldsReport(row, syntax, dates);
      FromRow(row, syntax, dates)
  }

  // ---------------------------------------------------------------- unique_vins

  /** No two items share a key. */
  predicate DistinctKeys<V>(items: seq<V>, key: V -> string) {
    forall i, j :: 0 <= i < j < |items| ==> key(items[i]) != key(items[j])
  }

  /** Item `j` is the first whose key repeats an earlier one. */
  predicate FirstRepeat<V>(items: seq<V>, key: V -> string, j: int) {
    0 <= j < |items| && DistinctKeys(items[..j], key) && exists i :: 0 <= i < j && key(items[i]) == key(items[j])
  }

  /** The dictionary `{key(item): item}` built in order (a later item replaces an earlier one). */
  function Keyed<V>(items: seq<V>, key: V -> string): (m: map<string, V>)
    ensures forall i :: 0 <= i < |items| ==> key(items[i]) in m
    ensures forall k :: k in m ==> exists i :: 0 <= i < |items| && key(items[i]) == k
  {
    if items == [] then map[]
    else
      var last := items[|items| - 1];
      Keyed(items[..|items| - 1], key)[key(last) := last]
  }

  /** With distinct keys, every item is found under its own key and nothing is lost. */
  lemma {:induction false} KeyedDistinct<V>(items: seq<V>, key: V -> string)
    requires DistinctKeys(items, key)
    ensures |Keyed(items, key)| == |items|
    ensures forall i :: 0 <= i < |items| ==> Keyed(items, key)[key(items[i])] == items[i]
  {
    if items != [] {
      var init := items[..|items| - 1];
      var last := items[|items| - 1];
      assert DistinctKeys(init, key);
      KeyedDistinct(init, key);
      forall i | 0 <= i < |init|
        ensures key(init[i]) != key(last)
      {
        assert init[i] == items[i];
      }
      forall i | 0 <= i < |items|
        ensures Keyed(items, key)[key(items[i])] == items[i]
      {
        if i < |items| - 1 {
          assert items[i] == init[i];
          assert key(items[i]) != key(last);
        }
      }
    }
  }

  /** One more item: its key now maps to it. */
  lemma KeyedStep<V>(items: seq<V>, key: V -> string, i: nat)
    requires i < |items|
    ensures Keyed(items[..i + 1], key) == Keyed(items[..i], key)[key(items[i]) := items[i]]
  {
    assert items[..i + 1][..i] == items[..i];
  }

  /** One more item with a new key keeps the keys distinct. */
  lemma DistinctStep<V>(items: seq<V>, key: V -> string, i: nat)
    requires i < |items| && DistinctKeys(items[..i], key)
    requires key(items[i]) !in Keyed(items[..i], key)
    ensures DistinctKeys(items[..i + 1], key)
  {
    var prefix, next := items[..i], items[..i + 1];
    forall h, j | 0 <= h < j < |next|
      ensures key(next[h]) != key(next[j])
    {
      assert next[h] == prefix[h];
      if j < i {
        assert next[j] == prefix[j];
      } else {
        assert next[j] == items[i];
        assert key(prefix[h]) in Keyed(prefix, key);
      }
    }
  }

  /** One more item with a key already seen is the first repeat, so the keys are not distinct. */
  lemma RepeatFound<V>(items: seq<V>, key: V -> string, i: nat)
    requires i < |items| && DistinctKeys(items[..i], key)
    requires key(items[i]) in Keyed(items[..i], key)
    ensures FirstRepeat(items, key, i)
    ensures !DistinctKeys(items, key)
  {
    var h :| 0 <= h < i && key(items[..i][h]) == key(items[i]);
    assert items[..i][h] == items[h];
  }

  /** The message `unique_vins` raises with. */
  function DuplicateMessage(vin: string): string {
    "Duplicate vehicle VIN detected: " + vin
  }

  /**
   * `unique_vins`, over any key: the dictionary of the items by key, or the first key that
   * repeats (the duplicate the loop stops at).
   */
  method UniqueKeyed<V>(items: seq<V>, key: V -> string) returns (r: Result<map<string, V>, string>)
    ensures r.Success? <==> DistinctKeys(items, key)
    ensures r.Success? ==> r.value == Keyed(items, key)
    ensures r.Failure? ==> exists j :: FirstRepeat(items, key, j) && r.error == key(items[j])
  {
    var unique: map<string, V> := map[];
    var i := 0;
    while i < |items|
      invariant 0 <= i <= |items|
      invariant DistinctKeys(items[..i], key)
      invariant unique == Keyed(items[..i], key)
    {
      var item := items[i];
      if key(item) in unique {
        RepeatFound(items, key, i);
        return Failure(key(item));
      }
      DistinctStep(items, key, i);
      KeyedStep(items, key, i);
      unique := unique[key(item) := item];
      i := i + 1;
    }
    assert items[..i] == items;
    return Success(unique);
  }

  /** `unique_vins`: the VIN-keyed dictionary, or the message naming the first repeated VIN. */
  method UniqueVins(vehicles: seq<Vehicle>) returns (r: Result<map<string, Vehicle>, string>)
    ensures r.Success? <==> DistinctKeys(vehicles, VinOf)
    ensures r.Success? ==> |r.value| == |vehicles|
    ensures r.Success? ==> forall i :: 0 <= i < |vehicles| ==> vehicles[i].vin in r.value && r.value[vehicles[i].vin] == vehicles[i]
    ensures r.Failure? ==> exists j :: FirstRepeat(vehicles, VinOf, j) && r.error == DuplicateMessage(vehicles[j].vin)
  {
    var keyed := UniqueKeyed(vehicles, VinOf);
    if keyed.Failure? {
      return Failure(DuplicateMessage(keyed.error));
    }
    KeyedDistinct(vehicles, VinOf);
    return keyed;
  }

  function VinOf(v: Vehicle): string {
    v.vin
  }

  // ---------------------------------------------------------------- to_api_payload

  /** A JSON value of the payload. */
  datatype Field =
    | Str(text: string)
    | Whole(number: int)
    | Number(amount: real)
    | Prices(listPrice: string, salesPrice: string)

  /** `date.isoformat()`, left to the library. */
  type DateText = Date -> string

  /** `_serialize_date`: None stays None. */
  function SerializeDate(iso: DateText, value: Option<Date>): (r: Option<string>)
    ensures r.None? <==> value.None?
    ensures r.Some? ==> r.value == iso(value.value)
  {
    match value
    case None => None
    case Some(d) => Some(iso(d))
  }

  /** `_format_money`: `format(amount.normalize(), "f")`. */
  function FormatMoney(amount: Decimal): (r: string)
    ensures FixedNotation(r)
    ensures ReadFixed(r).Value() == amount.Value()
  {
    FormatPlain(amount)
  }

  function OptionalText(value: Option<string>): Option<Field> {
    if value.None? then None else Some(Str(value.value))
  }

  /** The keys of the payload, in the order `to_api_payload` writes them. */
  datatype PayloadKey =
    | ConfigurationNumber | VinKey | Category | Make | Model | ManufactureYear | Mileage | EngineCode
    | CubicCapacity | Acceleration | FuelType | Power | TransmissionType | DriveWheels | VehicleType
    | CarClass | Doors | Color | AvailableFrom | FirstRegistrationDate | Description | Pricing
    | RegistrationNumber | LocationId
  {
    /** The JSON name of the key. */
    function Name(): string {
      match this
      case ConfigurationNumber => "configurationNumber"
      case VinKey => "vin"
      case Category => "category"
      case Make => "make"
      case Model => "model"
      case ManufactureYear => "manufactureYear"
      case Mileage => "mileage"
      case EngineCode => "engineCode"
      case CubicCapacity => "cubicCapacity"
      case Acceleration => "acceleration"
      case FuelType => "fuelType"
      case Power => "power"
      case TransmissionType => "transmissionType"
      case DriveWheels => "driveWheels"
      case VehicleType => "type"
      case CarClass => "carClass"
      case Doors => "doors"
      case Color => "color"
      case AvailableFrom => "availableFrom"
      case FirstRegistrationDate => "firstRegistrationDate"
      case Description => "description"
      case Pricing => "pricing"
      case RegistrationNumber => "registrationNumber"
      case LocationId => "locationId"
    }
  }

  /** The value `to_api_payload` writes under `key` before dropping the None values. */
  function FullPayload(v: Vehicle, iso: DateText, key: PayloadKey): Option<Field> {
    match key
    case ConfigurationNumber => OptionalText(v.configurationNumber)
    case VinKey => Some(Str(v.vin))
    case Category => Some(Str(v.category))
    case Make => Some(Str(v.make))
    case Model => Some(Str(v.model))
    case ManufactureYear => Some(Whole(v.manufactureYear))
    case Mileage => Some(Whole(v.mileage))
    case EngineCode => OptionalText(v.engineCode)
    case CubicCapacity => Some(Number(v.cubicCapacity))
    case Acceleration => if v.acceleration.None? then None else Some(Number(v.acceleration.value))
    case FuelType => Some(Str(v.fuelType))
    case Power => Some(Whole(v.power))
    case TransmissionType => Some(Str(v.transmissionType))
    case DriveWheels => Some(Str(v.driveWheels))
    case VehicleType => Some(Str(v.vehicleType))
    case CarClass => OptionalText(v.carClass)
    case Doors => if v.doors.None? then None else Some(Whole(v.doors.value))
    case Color => Some(Str(v.color))
    case AvailableFrom => OptionalText(SerializeDate(iso, v.availableFrom))
    case FirstRegistrationDate => OptionalText(SerializeDate(iso, v.firstRegistrationDate))
    case Description => OptionalText(v.description)
    case Pricing => Some(Prices(FormatMoney(v.listPrice), FormatMoney(v.salesPrice)))
    case RegistrationNumber => OptionalText(v.registrationNumber)
    case LocationId => OptionalText(v.locationId)
  }

  /** `to_api_payload`: the fields above without the None values. */
  function ToApiPayload(v: Vehicle, iso: DateText): (r: map<PayloadKey, Field>)
    ensures forall k :: k in r <==> FullPayload(v, iso, k).Some?
    ensures forall k :: k in r ==> FullPayload(v, iso, k) == Some(r[k])
  {
    map k: PayloadKey | FullPayload(v, iso, k).Some? :: FullPayload(v, iso, k).value
  }

  /** The keys the payload always carries. */
  const AlwaysSent: set<PayloadKey> := {
    VinKey, Category, Make, Model, ManufactureYear, Mileage, CubicCapacity, FuelType,
    Power, TransmissionType, DriveWheels, VehicleType, Color, Pricing}

  /** The required fields are always sent. */
  lemma PayloadAlwaysSent(v: Vehicle, iso: DateText)
    ensures forall k :: k in AlwaysSent ==> k in ToApiPayload(v, iso)
  {
    forall k | k in AlwaysSent
      ensures FullPayload(v, iso, k).Some?
    {
    }
  }

  /** The required text fields are sent under their keys, with the vehicle's values. */
  lemma PayloadRequiredValues(v: Vehicle, iso: DateText)
    ensures var p := ToApiPayload(v, iso);
      && VinKey in p && p[VinKey] == Str(v.vin) && Make in p && p[Make] == Str(v.make)
      && Model in p && p[Model] == Str(v.model) && Color in p && p[Color] == Str(v.color)
      && Category in p && p[Category] == Str(v.category)
      && FuelType in p && p[FuelType] == Str(v.fuelType)
      && TransmissionType in p && p[TransmissionType] == Str(v.transmissionType)
      && DriveWheels in p && p[DriveWheels] == Str(v.driveWheels)
      && VehicleType in p && p[VehicleType] == Str(v.vehicleType)
  {
    assert FullPayload(v, iso, VinKey) == Some(Str(v.vin));
    assert FullPayload(v, iso, Make) == Some(Str(v.make));
    assert FullPayload(v, iso, Model) == Some(Str(v.model));
    assert FullPayload(v, iso, Color) == Some(Str(v.color));
    assert FullPayload(v, iso, Category) == Some(Str(v.category));
    assert FullPayload(v, iso, FuelType) == Some(Str(v.fuelType));
    assert FullPayload(v, iso, TransmissionType) == Some(Str(v.transmissionType));
    assert FullPayload(v, iso, DriveWheels) == Some(Str(v.driveWheels));
    assert FullPayload(v, iso, VehicleType) == Some(Str(v.vehicleType));
  }

  /** The required numeric fields are sent under their keys, with the vehicle's values. */
  lemma PayloadRequiredNumbers(v: Vehicle, iso: DateText)
    ensures var p := ToApiPayload(v, iso);
      && ManufactureYear in p && p[ManufactureYear] == Whole(v.manufactureYear)
      && Mileage in p && p[Mileage] == Whole(v.mileage) && Power in p && p[Power] == Whole(v.power)
      && CubicCapacity in p && p[CubicCapacity] == Number(v.cubicCapacity)
  {
    assert FullPayload(v, iso, ManufactureYear) == Some(Whole(v.manufactureYear));
    assert FullPayload(v, iso, Mileage) == Some(Whole(v.mileage));
    assert FullPayload(v, iso, Power) == Some(Whole(v.power));
    assert FullPayload(v, iso, CubicCapacity) == Some(Number(v.cubicCapacity));
  }

  /** An optional text field is sent exactly when the vehicle has a value for it. */
  lemma PayloadOptionalTextKeys(v: Vehicle, iso: DateText)
    ensures var p := ToApiPayload(v, iso);
      && (ConfigurationNumber in p <==> v.configurationNumber.Some?)
      && (EngineCode in p <==> v.engineCode.Some?)
      && (CarClass in p <==> v.carClass.Some?)
      && (Description in p <==> v.description.Some?)
      && (RegistrationNumber in p <==> v.registrationNumber.Some?)
      && (LocationId in p <==> v.locationId.Some?)
  {
    assert FullPayload(v, iso, ConfigurationNumber) == OptionalText(v.configurationNumber);
    assert FullPayload(v, iso, EngineCode) == OptionalText(v.engineCode);
    assert FullPayload(v, iso, CarClass) == OptionalText(v.carClass);
    assert FullPayload(v, iso, Description) == OptionalText(v.description);
    assert FullPayload(v, iso, RegistrationNumber) == OptionalText(v.registrationNumber);
    assert FullPayload(v, iso, LocationId) == OptionalText(v.locationId);
  }

  /** An optional number or date is sent exactly when the vehicle has a value for it. */
  lemma PayloadOptionalOtherKeys(v: Vehicle, iso: DateText)
    ensures var p := ToApiPayload(v, iso);
      && (Acceleration in p <==> v.acceleration.Some?)
      && (Doors in p <==> v.doors.Some?)
      && (AvailableFrom in p <==> v.availableFrom.Some?)
      && (FirstRegistrationDate in p <==> v.firstRegistrationDate.Some?)
  {
    assert FullPayload(v, iso, Acceleration).Some? <==> v.acceleration.Some?;
    assert FullPayload(v, iso, Doors).Some? <==> v.doors.Some?;
    assert FullPayload(v, iso, AvailableFrom) == OptionalText(SerializeDate(iso, v.availableFrom));
    assert FullPayload(v, iso, FirstRegistrationDate) == OptionalText(SerializeDate(iso, v.firstRegistrationDate));
  }

  /** A sent optional text field carries the vehicle's value. */
  lemma PayloadOptionalTextValues(v: Vehicle, iso: DateText)
    ensures var p := ToApiPayload(v, iso);
      && (v.configurationNumber.Some? ==> ConfigurationNumber in p && p[ConfigurationNumber] == Str(v.configurationNumber.value))
      && (v.engineCode.Some? ==> EngineCode in p && p[EngineCode] == Str(v.engineCode.value))
      && (v.carClass.Some? ==> CarClass in p && p[CarClass] == Str(v.carClass.value))
      && (v.description.Some? ==> Description in p && p[Description] == Str(v.description.value))
      && (v.registrationNumber.Some? ==> RegistrationNumber in p && p[RegistrationNumber] == Str(v.registrationNumber.value))
      && (v.locationId.Some? ==> LocationId in p && p[LocationId] == Str(v.locationId.value))
  {
    assert FullPayload(v, iso, ConfigurationNumber) == OptionalText(v.configurationNumber);
    assert FullPayload(v, iso, EngineCode) == OptionalText(v.engineCode);
    assert FullPayload(v, iso, CarClass) == OptionalText(v.carClass);
    assert FullPayload(v, iso, Description) == OptionalText(v.description);
    assert FullPayload(v, iso, RegistrationNumber) == OptionalText(v.registrationNumber);
    assert FullPayload(v, iso, LocationId) == OptionalText(v.locationId);
  }

  /** A sent optional number or date carries the vehicle's value, dates written by `iso`. */
  lemma PayloadOptionalValues(v: Vehicle, iso: DateText)
    ensures var p := ToApiPayload(v, iso);
      && (v.doors.Some? ==> Doors in p && p[Doors] == Whole(v.doors.value))
      && (v.acceleration.Some? ==> Acceleration in p && p[Acceleration] == Number(v.acceleration.value))
      && (v.availableFrom.Some? ==> AvailableFrom in p && p[AvailableFrom] == Str(iso(v.availableFrom.value)))
      && (v.firstRegistrationDate.Some? ==> FirstRegistrationDate in p && p[FirstRegistrationDate] == Str(iso(v.firstRegistrationDate.value)))
  {
    assert FullPayload(v, iso, AvailableFrom) == OptionalText(SerializeDate(iso, v.availableFrom));
    assert FullPayload(v, iso, FirstRegistrationDate) == OptionalText(SerializeDate(iso, v.firstRegistrationDate));
  }

  /** The prices are sent as plain decimal text that reads back as the same amounts. */
  lemma PayloadPrices(v: Vehicle, iso: DateText)
    ensures var p := ToApiPayload(v, iso);
      && Pricing in p && p[Pricing].Prices?
      && FixedNotation(p[Pricing].listPrice) && FixedNotation(p[Pricing].salesPrice)
      && ReadFixed(p[Pricing].listPrice).Value() == v.listPrice.Value()
      && ReadFixed(p[Pricing].salesPrice).Value() == v.salesPrice.Value()
  {
  }

  /** `sorted(set(xs))` depends only on which names occur, not on their order or repetition. */
  lemma SortedUniqueBySet(xs: seq<string>, ys: seq<string>)
    requires forall k :: k in xs <==> k in ys
    ensures SortedUnique(xs) == SortedUnique(ys)
  {
    SortedUniqueDetermined(SortedUnique(xs), SortedUnique(ys));
  }
}
