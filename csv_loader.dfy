/**
 * The CSV loader (`csv_loader.py`): every data row is cleaned and converted; a row that
 * raises becomes a row error carrying its line number, the exception text and the VIN of
 * the raw row, and the loading goes on with the next row.
 *
 * Reading the file and splitting it into rows (`csv.DictReader`) is not modelled: the
 * loader receives the rows as the reader yields them, a value of `None` standing for a
 * column the line is too short to fill.
 */
module CsvLoader {
  import opened Wrappers
  import opened Text
  import opened Numeric
  import opened Models
  import opened Normalizers

  /** A row as `csv.DictReader` yields it. */
  type RawRow = map<string, Option<string>>

  /** `CsvRowError`: a validation error tied to one line of the file. */
  datatype CsvRowError = CsvRowError(lineNumber: nat, message: string, vin: Option<string>) {
    /** `format_for_display`: "Wiersz <n>", then " (VIN: <vin>)" for a non-empty VIN, then ": <message>". */
    function FormatForDisplay(): (r: string)
      ensures "Wiersz " + NatToText(lineNumber) <= r
      ensures |r| >= |message| + 2 && r[|r| - |message| - 2..] == ": " + message
      ensures var after := r[7 + |NatToText(lineNumber)|..];
        if vin.Some? && vin.value != "" then after == " (VIN: " + vin.value + "): " + message else after == ": " + message
    {
      var head, rest := "Wiersz " + NatToText(lineNumber), VinLabel() + ": " + message;
      assert (head + rest)[|head|..] == rest;
      head + rest
    }

    /** What the label adds for a (non-empty) VIN. */
    function VinLabel(): string {
      if vin.Some? && vin.value != "" then " (VIN: " + vin.value + ")" else ""
    }
  }

  /** `CsvValidationError`: the displayed row errors, its message their lines joined. */
  datatype CsvValidationError = CsvValidationError(errors: seq<string>) {
    function Message(): string {
      Join("\n", errors)
    }
  }

  /** `(row.get("vin") or "").strip() or None`, on the raw (uncleaned) row. */
  function RawVin(row: RawRow): Option<string>
  {
    var raw := if "vin" in row && row["vin"].Some? then row["vin"].value else "";
    var stripped := Strip(raw);
    if stripped == "" then None else Some(stripped)
  }

  /**
   * A row has no raw VIN exactly when its `vin` cell is missing, empty or all whitespace;
   * a VIN it has is non-empty and has no whitespace at either end.
   */
  lemma RawVinPresent(row: RawRow)
    ensures RawVin(row).None? <==> ("vin" !in row || row["vin"].None? || forall i :: 0 <= i < |row["vin"].value| ==> IsSpace(row["vin"].value[i]))
    ensures RawVin(row).Some? ==> RawVin(row).value != [] && !IsSpace(RawVin(row).value[0]) && !IsSpace(RawVin(row).value[|RawVin(row).value| - 1])
  {
    if "vin" in row && row["vin"].Some? {
      var raw := row["vin"].value;
      assert RawVin(row) == if Strip(raw) == "" then None else Some(Strip(raw));
    } else {
      assert Strip("") == "";
      assert RawVin(row) == None;
    }
  }

  /** What `load_vehicles_from_csv` returns: the vehicles and the row errors. */
  datatype Loaded = Loaded(vehicles: seq<Vehicle>, errors: seq<CsvRowError>)

  /** How a row converts: its vehicle, or the error `vehicle_from_row` raises. */
  type Outcome = Result<Vehicle, RowError>

  /**
   * The result of loading the first `m` rows, row `i` converting to `outcomes[i]` and its
   * raw VIN being `vins[i]`: the rows taken in order, a converted row appending its vehicle
   * and a failing one its error, on line `i + 2` (the header is line 1).
   */
  function LoadFirst(vins: seq<Option<string>>, outcomes: seq<Outcome>, m: nat): Loaded
    requires m <= |vins| && m <= |outcomes|
  {
    if m == 0 then Loaded([], [])
    else
      var before := LoadFirst(vins, outcomes, m - 1);
      match outcomes[m - 1]
      case Success(v) => Loaded(before.vehicles + [v], before.errors)
      case Failure(e) => Loaded(before.vehicles, before.errors + [CsvRowError(m + 1, e.Message(), vins[m - 1])])
  }

  /** Row `row` was cleaned (`clean_row`) into `cleaned`, which converted (`vehicle_from_row`) to `outcome`. */
  ghost predicate RowLoaded(row: RawRow, env: Environment, dates: DateSyntax, cleaned: map<string, string>, outcome: Outcome) {
    CleanedFrom(row, env, cleaned) && outcome == FromRow(cleaned, env.syntax, dates)
  }

  /**
   * The bookkeeping of one row of `load_vehicles_from_csv`: a converted row adds its vehicle,
   * a failing one its error on line `lineNumber`, the next line after those already loaded.
   */
  method Record(vehicles: seq<Vehicle>, errors: seq<CsvRowError>, lineNumber: nat, vin: Option<string>, result: Outcome,
                ghost vins: seq<Option<string>>, ghost outcomes: seq<Outcome>)
    returns (vehicles': seq<Vehicle>, errors': seq<CsvRowError>)
    requires |vins| == |outcomes| && lineNumber == |outcomes| + 2
    requires Loaded(vehicles, errors) == LoadFirst(vins, outcomes, |outcomes|)
    ensures Loaded(vehicles', errors') == LoadFirst(vins + [vin], outcomes + [result], |outcomes| + 1)
  {
    vehicles', errors' := vehicles, errors;
    if result.Success? {
      vehicles' := vehicles + [result.value];
    } else {
      errors' := errors + [CsvRowError(lineNumber, result.error.Message(), vin)];
    }
    LoadFirstExtends(vins, vins + [vin], outcomes, outcomes + [result], |outcomes|);
  }

  /** The loading of a row as a relation value, for stating facts about rows position by position. */
  lemma RowLoadedRelation(env: Environment, dates: DateSyntax) returns (loads: (RawRow, map<string, string>, Outcome) -> bool)
    ensures forall r, c, o {:trigger RowLoaded(r, env, dates, c, o)} :: loads(r, c, o) == RowLoaded(r, env, dates, c, o)
  {
    loads := (r, c, o) => RowLoaded(r, env, dates, c, o);
  }

  /**
   * One row of `load_vehicles_from_csv`, the one after those already loaded: `clean_row`
   * followed by `vehicle_from_row`.
   */
  method LoadRow(rows: seq<RawRow>, i: nat, env: Environment, dates: DateSyntax, ghost loads: (RawRow, map<string, string>, Outcome) -> bool)
    returns (row: map<string, string>, outcome: Outcome)
    requires forall r, c, o {:trigger RowLoaded(r, env, dates, c, o)} :: loads(r, c, o) == RowLoaded(r, env, dates, c, o)
    requires i < |rows|
    ensures loads(rows[i], row, outcome)
  {
    row := CleanRow(rows[i], env);
    outcome := FromRow(row, env.syntax, dates);
    assert RowLoaded(rows[i], env, dates, row, outcome);
  }

  /** `p` holds of `xs[i]`, `ys[i]` and `zs[i]` for each of the first `n` positions. */
  ghost predicate HoldsUpTo<A, B, C>(p: (A, B, C) -> bool, xs: seq<A>, ys: seq<B>, zs: seq<C>, n: nat)
    requires n <= |xs| && n <= |ys| && n <= |zs|
  {
    n == 0 || (HoldsUpTo(p, xs, ys, zs, n - 1) && p(xs[n - 1], ys[n - 1], zs[n - 1]))
  }

  /** `HoldsUpTo` looks at no position from `n` on. */
  lemma {:induction false} HoldsUpToExtends<A, B, C>(p: (A, B, C) -> bool, xs: seq<A>, ys: seq<B>, zs: seq<C>, ys': seq<B>, zs': seq<C>, n: nat)
    requires n <= |xs| && n <= |ys| && n <= |zs| && n <= |ys'| && n <= |zs'|
    requires forall j :: 0 <= j < n ==> ys'[j] == ys[j] && zs'[j] == zs[j]
    ensures HoldsUpTo(p, xs, ys', zs', n) == HoldsUpTo(p, xs, ys, zs, n)
  {
    if n > 0 {
      HoldsUpToExtends(p, xs, ys, zs, ys', zs', n - 1);
    }
  }

  /** `HoldsUpTo` says of each of the first `n` positions that `p` holds there. */
  lemma {:induction false} HoldsUpToEach<A, B, C>(p: (A, B, C) -> bool, xs: seq<A>, ys: seq<B>, zs: seq<C>, n: nat)
    requires n <= |xs| && n <= |ys| && n <= |zs|
    requires HoldsUpTo(p, xs, ys, zs, n)
    ensures forall j :: 0 <= j < n ==> p(xs[j], ys[j], zs[j])
  {
    if n > 0 {
      HoldsUpToEach(p, xs, ys, zs, n - 1);
    }
  }

  /** `p` holding at one more position extends `HoldsUpTo` by one. */
  lemma HoldsStep<A, B, C>(p: (A, B, C) -> bool, xs: seq<A>, ys: seq<B>, zs: seq<C>, y: B, z: C)
    requires |ys| == |zs| < |xs|
    requires HoldsUpTo(p, xs, ys, zs, |ys|)
    requires p(xs[|ys|], y, z)
    ensures HoldsUpTo(p, xs, ys + [y], zs + [z], |ys| + 1)
  {
    HoldsUpToExtends(p, xs, ys, zs, ys + [y], zs + [z], |ys|);
  }

  /**
   * The state of `load_vehicles_from_csv` after its first `i` rows: each was cleaned into
   * `cleaned[i]` and converted to `outcomes[i]` (as `loads` relates them), its raw VIN is
   * `vins[i]`, and the vehicles and errors are those of `LoadFirst`.
   */
  ghost predicate LoadedSoFar(rows: seq<RawRow>, i: nat, vehicles: seq<Vehicle>, errors: seq<CsvRowError>,
                              cleaned: seq<map<string, string>>, outcomes: seq<Outcome>, vins: seq<Option<string>>,
                              loads: (RawRow, map<string, string>, Outcome) -> bool)
  {
    && i <= |rows| && |cleaned| == i && |outcomes| == i && |vins| == i
    && HoldsUpTo(loads, rows, cleaned, outcomes, i)
    && (forall k :: 0 <= k < i ==> vins[k] == RawVin(rows[k]))
    && Loaded(vehicles, errors) == LoadFirst(vins, outcomes, i)
  }

  /** Reading the raw VIN of one more row extends the VINs read so far. */
  lemma RawVinsStep(rows: seq<RawRow>, vins: seq<Option<string>>, vin: Option<string>)
    requires |vins| < |rows| && vin == RawVin(rows[|vins|])
    requires forall k :: 0 <= k < |vins| ==> vins[k] == RawVin(rows[k])
    ensures forall k :: 0 <= k < |vins| + 1 ==> (vins + [vin])[k] == RawVin(rows[k])
  {
  }

  /** Loading row `i` and recording it moves `LoadedSoFar` on by one row. */
  lemma LoadedSoFarStep(rows: seq<RawRow>, i: nat, vehicles: seq<Vehicle>, errors: seq<CsvRowError>,
                        cleaned: seq<map<string, string>>, outcomes: seq<Outcome>, vins: seq<Option<string>>,
                        loads: (RawRow, map<string, string>, Outcome) -> bool,
                        row: map<string, string>, outcome: Outcome, vin: Option<string>, vehicles': seq<Vehicle>, errors': seq<CsvRowError>)
    requires LoadedSoFar(rows, i, vehicles, errors, cleaned, outcomes, vins, loads) && i < |rows|
    requires loads(rows[i], row, outcome) && vin == RawVin(rows[i])
    requires Loaded(vehicles', errors') == LoadFirst(vins + [vin], outcomes + [outcome], i + 1)
    ensures LoadedSoFar(rows, i + 1, vehicles', errors', cleaned + [row], outcomes + [outcome], vins + [vin], loads)
  {
    HoldsStep(loads, rows, cleaned, outcomes, row, outcome);
    RawVinsStep(rows, vins, vin);
  }

  /**
   * `load_vehicles_from_csv` after the reader: each row cleaned (`clean_row`) and converted
   * (`vehicle_from_row`), the line counter starting at the header's 1 and moving on with
   * every row. What each row was cleaned into and converted to is returned as a ghost record.
   */
  method LoadVehicles(rows: seq<RawRow>, env: Environment, dates: DateSyntax)
    returns (vehicles: seq<Vehicle>, errors: seq<CsvRowError>, ghost cleaned: seq<map<string, string>>, ghost outcomes: seq<Outcome>,
             ghost loads: (RawRow, map<string, string>, Outcome) -> bool, ghost vins: seq<Option<string>>)
    ensures forall r, c, o {:trigger RowLoaded(r, env, dates, c, o)} :: loads(r, c, o) == RowLoaded(r, env, dates, c, o)
    ensures |cleaned| == |rows| && |outcomes| == |rows| && |vins| == |rows|
    ensures forall i :: 0 <= i < |rows| ==> loads(rows[i], cleaned[i], outcomes[i]) && vins[i] == RawVin(rows[i])
    ensures Loaded(vehicles, errors) == LoadFirst(vins, outcomes, |rows|)
  {
    vehicles, errors, cleaned, outcomes, vins := [], [], [], [], [];
    loads := RowLoadedRelation(env, dates);
    var lineNumber := 1;
    var i := 0;
    while i < |rows|
      invariant LoadedSoFar(rows, i, vehicles, errors, cleaned, outcomes, vins, loads) && lineNumber == i + 1
    {
      lineNumber := lineNumber + 1;
      var row, result := LoadRow(rows, i, env, dates, loads);
      var vin := RawVin(rows[i]);
      var vehicles', errors' := Record(vehicles, errors, lineNumber, vin, result, vins, outcomes);
      LoadedSoFarStep(rows, i, vehicles, errors, cleaned, outcomes, vins, loads, row, result, vin, vehicles', errors');
      vehicles, errors := vehicles', errors';
      cleaned := cleaned + [row];
      vins := vins + [vin];
      outcomes := outcomes + [result];
      i := i + 1;
    }
    HoldsUpToEach(loads, rows, cleaned, outcomes, i);
  }

  /** Loading the first `m` rows looks at no outcome beyond them. */
  lemma {:induction false} LoadFirstExtends(vins: seq<Option<string>>, vins': seq<Option<string>>, outcomes: seq<Outcome>, outcomes': seq<Outcome>, m: nat)
    requires m <= |vins| && m <= |vins'| && m <= |outcomes| && m <= |outcomes'|
    requires forall i :: 0 <= i < m ==> vins'[i] == vins[i] && outcomes'[i] == outcomes[i]
    ensures LoadFirst(vins', outcomes', m) == LoadFirst(vins, outcomes, m)
  {
    if m > 0 {
      LoadFirstExtends(vins, vins', outcomes, outcomes', m - 1);
    }
  }

  /** Every row ends up as exactly one vehicle or one error. */
  lemma {:induction false} LoadCounts(vins: seq<Option<string>>, outcomes: seq<Outcome>, m: nat)
    requires m <= |vins| && m <= |outcomes|
    ensures |LoadFirst(vins, outcomes, m).vehicles| + |LoadFirst(vins, outcomes, m).errors| == m
  {
    if m > 0 {
      LoadCounts(vins, outcomes, m - 1);
    }
  }

  /**
   * `e` reports row `i` = `e.lineNumber - 2`, one of the first `m`, as failing: the row's
   * conversion fails, `e` carries the text of that failure and the VIN of the raw row.
   */
  predicate ReportsFailure(vins: seq<Option<string>>, outcomes: seq<Outcome>, m: nat, e: CsvRowError)
    requires m <= |vins| && m <= |outcomes|
  {
    var i := e.lineNumber - 2;
    && 0 <= i < m
    && outcomes[i].Failure?
    && e.message == outcomes[i].error.Message()
    && e.vin == vins[i]
  }

  /** Every error of `errors` reports a failing row among the first `m`. */
  predicate EachReportsFailure(vins: seq<Option<string>>, outcomes: seq<Outcome>, m: nat, errors: seq<CsvRowError>)
    requires m <= |vins| && m <= |outcomes|
  {
    forall k :: 0 <= k < |errors| ==> ReportsFailure(vins, outcomes, m, errors[k])
  }

  /** The line numbers of `errors` strictly increase. */
  predicate LinesIncrease(errors: seq<CsvRowError>) {
    forall j, k :: 0 <= j < k < |errors| ==> errors[j].lineNumber < errors[k].lineNumber
  }

  /** Appending a report about row `m` keeps every error a report. */
  lemma ReportsAppend(vins: seq<Option<string>>, outcomes: seq<Outcome>, m: nat, errors: seq<CsvRowError>, last: CsvRowError)
    requires m < |vins| && m < |outcomes|
    requires EachReportsFailure(vins, outcomes, m, errors) && ReportsFailure(vins, outcomes, m + 1, last)
    ensures EachReportsFailure(vins, outcomes, m + 1, errors + [last])
    ensures forall k :: 0 <= k < |errors| ==> errors[k].lineNumber < m + 2
  {
    forall k | 0 <= k < |errors| + 1
      ensures ReportsFailure(vins, outcomes, m + 1, (errors + [last])[k])
    {
      if k < |errors| {
        assert (errors + [last])[k] == errors[k];
        assert ReportsFailure(vins, outcomes, m, errors[k]);
      }
    }
    forall k | 0 <= k < |errors|
      ensures errors[k].lineNumber < m + 2
    {
      assert ReportsFailure(vins, outcomes, m, errors[k]);
    }
  }

  /** A report about one of the first `m` rows is a report about one of the first `m + 1`. */
  lemma ReportsWiden(vins: seq<Option<string>>, outcomes: seq<Outcome>, m: nat, errors: seq<CsvRowError>)
    requires m < |vins| && m < |outcomes|
    requires EachReportsFailure(vins, outcomes, m, errors)
    ensures EachReportsFailure(vins, outcomes, m + 1, errors)
  {
    forall k | 0 <= k < |errors|
      ensures ReportsFailure(vins, outcomes, m + 1, errors[k])
    {
      assert ReportsFailure(vins, outcomes, m, errors[k]);
    }
  }

  /** Appending an error on a later line keeps the lines increasing. */
  lemma LinesAppend(errors: seq<CsvRowError>, last: CsvRowError)
    requires LinesIncrease(errors)
    requires forall k :: 0 <= k < |errors| ==> errors[k].lineNumber < last.lineNumber
    ensures LinesIncrease(errors + [last])
  {
    var all := errors + [last];
    forall j, k | 0 <= j < k < |all|
      ensures all[j].lineNumber < all[k].lineNumber
    {
      assert all[j] == errors[j];
      if k < |errors| {
        assert all[k] == errors[k];
      }
    }
  }

  /**
   * Each error stands for a failing row: its line is that row's (so the lines lie between
   * 2 and the number of rows plus one, in increasing order), its message is the text of
   * the failure and its VIN is that of the raw row.
   */
  lemma {:induction false} ErrorsReportFailures(vins: seq<Option<string>>, outcomes: seq<Outcome>, m: nat)
    requires m <= |vins| && m <= |outcomes|
    ensures EachReportsFailure(vins, outcomes, m, LoadFirst(vins, outcomes, m).errors)
    ensures LinesIncrease(LoadFirst(vins, outcomes, m).errors)
  {
    if m > 0 {
      ErrorsReportFailures(vins, outcomes, m - 1);
      var before := LoadFirst(vins, outcomes, m - 1).errors;
      if outcomes[m - 1].Failure? {
        var last := CsvRowError(m + 1, outcomes[m - 1].error.Message(), vins[m - 1]);
        assert LoadFirst(vins, outcomes, m).errors == before + [last];
        ReportsAppend(vins, outcomes, m - 1, before, last);
        LinesAppend(before, last);
      } else {
        ReportsWiden(vins, outcomes, m - 1, before);
      }
    }
  }

  /** Some error of `errors` is on line `line`. */
  ghost predicate LineReported(errors: seq<CsvRowError>, line: int) {
    exists k :: 0 <= k < |errors| && errors[k].lineNumber == line
  }

  /** An error stays reported when more errors follow. */
  lemma LineStaysReported(errors: seq<CsvRowError>, more: seq<CsvRowError>, line: int)
    requires LineReported(errors, line)
    ensures LineReported(errors + more, line)
  {
    var k :| 0 <= k < |errors| && errors[k].lineNumber == line;
    assert (errors + more)[k] == errors[k];
  }

  /** Every failing row is reported, on its own line. */
  lemma {:induction false} FailuresReported(vins: seq<Option<string>>, outcomes: seq<Outcome>, m: nat)
    requires m <= |vins| && m <= |outcomes|
    ensures forall i :: 0 <= i < m && outcomes[i].Failure? ==> LineReported(LoadFirst(vins, outcomes, m).errors, i + 2)
  {
    if m > 0 {
      FailuresReported(vins, outcomes, m - 1);
      var before := LoadFirst(vins, outcomes, m - 1).errors;
      var errors := LoadFirst(vins, outcomes, m).errors;
      var more := if outcomes[m - 1].Failure? then [CsvRowError(m + 1, outcomes[m - 1].error.Message(), vins[m - 1])] else [];
      assert errors == before + more;
      forall i | 0 <= i < m - 1 && outcomes[i].Failure?
        ensures LineReported(errors, i + 2)
      {
        LineStaysReported(before, more, i + 2);
      }
      if outcomes[m - 1].Failure? {
        assert errors[|before|].lineNumber == m + 1;
      }
    }
  }

  /** Every vehicle is the conversion of one of the rows. */
  lemma {:induction false} VehiclesConverted(vins: seq<Option<string>>, outcomes: seq<Outcome>, m: nat)
    requires m <= |vins| && m <= |outcomes|
    ensures forall v :: v in LoadFirst(vins, outcomes, m).vehicles ==> exists i :: 0 <= i < m && outcomes[i] == Success(v)
  {
    if m > 0 {
      VehiclesConverted(vins, outcomes, m - 1);
    }
  }

  /** An enumeration mapped with `default_upper` through a table of upper-case words passes `_normalise_enum` unchanged. */
  lemma MappedEnumUnchanged(fold: Fold, value: Option<string>, mapping: map<string, string>)
    requires CanonicalValues(mapping)
    ensures var r := MapEnum(fold, value, mapping, true, false); NormaliseEnum(r) == r
  {
    MappedEnumIsCanonical(fold, value, mapping, false);
  }

  /**
   * The enumerations `clean_row` writes with `default_upper` pass through `vehicle_from_row`'s
   * `_normalise_enum` unchanged: each of those tables holds only upper-case words.
   */
  lemma CleanedEnumsUnchanged(fold: Fold, value: Option<string>)
    ensures var r := MapEnum(fold, value, Tables.category, true, false); NormaliseEnum(r) == r
    ensures var r := MapEnum(fold, value, Tables.fuel, true, false); NormaliseEnum(r) == r
    ensures var r := MapEnum(fold, value, Tables.transmission, true, false); NormaliseEnum(r) == r
    ensures var r := MapEnum(fold, value, Tables.vehicleType, true, false); NormaliseEnum(r) == r
  {
    CategoryMapCanonical();
    MappedEnumUnchanged(fold, value, Tables.category);
    FuelMapCanonical();
    MappedEnumUnchanged(fold, value, Tables.fuel);
    TransmissionMapCanonical();
    MappedEnumUnchanged(fold, value, Tables.transmission);
    VehicleTypeMapCanonical();
    MappedEnumUnchanged(fold, value, Tables.vehicleType);
  }

  /** The vehicles of the rows that convert, in row order. */
  function Converted(outcomes: seq<Outcome>): (r: seq<Vehicle>)
    ensures |r| <= |outcomes|
  {
    if outcomes == [] then []
    else
      var last := outcomes[|outcomes| - 1];
      Converted(outcomes[..|outcomes| - 1]) + (if last.Success? then [last.value] else [])
  }

  /** A vehicle is among the converted ones exactly when some row converts to it. */
  lemma {:induction false} ConvertedMembers(outcomes: seq<Outcome>, v: Vehicle)
    ensures v in Converted(outcomes) <==> exists i :: 0 <= i < |outcomes| && outcomes[i] == Success(v)
  {
    if outcomes != [] {
      var front := outcomes[..|outcomes| - 1];
      ConvertedMembers(front, v);
      if exists i :: 0 <= i < |outcomes| && outcomes[i] == Success(v) {
        var i :| 0 <= i < |outcomes| && outcomes[i] == Success(v);
        if i < |front| {
          assert front[i] == Success(v);
        }
      }
      if exists i :: 0 <= i < |front| && front[i] == Success(v) {
        var i :| 0 <= i < |front| && front[i] == Success(v);
        assert outcomes[i] == Success(v);
      }
    }
  }

  /**
   * The vehicles are those of the rows that convert, each once and in row order: no row's
   * vehicle is lost, reordered or repeated.
   */
  lemma {:induction false} VehiclesInOrder(vins: seq<Option<string>>, outcomes: seq<Outcome>, m: nat)
    requires m <= |vins| && m <= |outcomes|
    ensures LoadFirst(vins, outcomes, m).vehicles == Converted(outcomes[..m])
  {
    if m > 0 {
      VehiclesInOrder(vins, outcomes, m - 1);
      assert outcomes[..m][..m - 1] == outcomes[..m - 1];
    }
  }

  /** The load reports no error exactly when every row converts. */
  lemma {:induction false} NoErrorsIffAllConverted(vins: seq<Option<string>>, outcomes: seq<Outcome>, m: nat)
    requires m <= |vins| && m <= |outcomes|
    ensures LoadFirst(vins, outcomes, m).errors == [] <==> forall i :: 0 <= i < m ==> outcomes[i].Success?
  {
    if m > 0 {
      NoErrorsIffAllConverted(vins, outcomes, m - 1);
    }
  }

  /** `assert_no_errors`: raises (`Some`) exactly when there is an error, with one display line per error. */
  function AssertNoErrors(errors: seq<CsvRowError>): (r: Option<CsvValidationError>)
    ensures r.None? <==> errors == []
    ensures r.Some? ==> |r.value.errors| == |errors|
    ensures r.Some? ==> forall k :: 0 <= k < |errors| ==> r.value.errors[k] == errors[k].FormatForDisplay()
  {
    if errors == [] then None
    else Some(CsvValidationError(seq(|errors|, k requires 0 <= k < |errors| => errors[k].FormatForDisplay())))
  }

  /** What follows the line number in a display starts with a space or a colon, never a digit. */
  lemma DisplayRestStart(e: CsvRowError)
    ensures var rest := e.VinLabel() + ": " + e.message;
      rest != [] && !('0' <= rest[0] <= '9')
  {
    var vinLabel, rest := e.VinLabel(), e.VinLabel() + ": " + e.message;
    assert vinLabel == [] || vinLabel[0] == ' ';
    assert rest[0] == if vinLabel == [] then ':' else ' ';
  }

  /** The displayed text of a row error is "Wiersz ", its line number, then a non-digit. */
  lemma DisplayStart(e: CsvRowError)
    ensures var rest := e.VinLabel() + ": " + e.message;
      && rest != [] && !('0' <= rest[0] <= '9')
      && e.FormatForDisplay() == "Wiersz " + (NatToText(e.lineNumber) + rest)
  {
    var number, rest := NatToText(e.lineNumber), e.VinLabel() + ": " + e.message;
    DisplayRestStart(e);
    assert e.FormatForDisplay() == ("Wiersz " + number) + rest;
    ConcatAssociative("Wiersz ", number, rest);
  }

  /** Two row errors that display alike are on the same line: the display names the line. */
  lemma DisplayNamesLine(e: CsvRowError, f: CsvRowError)
    requires e.FormatForDisplay() == f.FormatForDisplay()
    ensures e.lineNumber == f.lineNumber
  {
    DisplayStart(e);
    DisplayStart(f);
    var x, y := e.VinLabel() + ": " + e.message, f.VinLabel() + ": " + f.message;
    assert NatToText(e.lineNumber) + x == e.FormatForDisplay()[7..];
    assert NatToText(f.lineNumber) + y == f.FormatForDisplay()[7..];
    DigitsPrefix(NatToText(e.lineNumber), x, NatToText(f.lineNumber), y);
    NatToTextInjective(e.lineNumber, f.lineNumber);
  }

  /**
   * The message of the raised error splits back into the displayed errors, in order, as
   * long as no display contains a line break.
   */
  lemma ValidationMessageLines(errors: seq<CsvRowError>)
    requires errors != []
    requires forall k :: 0 <= k < |errors| ==> '\n' !in errors[k].FormatForDisplay()
    ensures AssertNoErrors(errors).Some?
    ensures |Split(AssertNoErrors(errors).value.Message(), '\n')| == |errors|
    ensures forall k :: 0 <= k < |errors| ==> Split(AssertNoErrors(errors).value.Message(), '\n')[k] == errors[k].FormatForDisplay()
  {
    var lines := AssertNoErrors(errors).value.errors;
    SplitJoin(lines, '\n');
  }
}
