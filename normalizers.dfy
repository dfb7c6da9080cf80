/**
 * The partner-quirk normaliser: string-level cleaning of a raw CSV row before it is
 * validated (`normalizers.py`).
 *
 * Three things the cleaning depends on are passed in rather than modelled:
 * `Decimal(text)` (a `DecimalSyntax`), the NFKD-and-drop-non-ASCII folding of
 * `_normalise_key` (a `Fold`), and the partner location table that `_location_map`
 * reads from a JSON file.
 */
module Normalizers {
  import opened Wrappers
  import opened Text
  import opened Numeric

  /** `unicodedata.normalize("NFKD", v).encode("ascii", "ignore").decode("ascii")` */
  type Fold = string -> string

  /** What the cleaning depends on but does not compute itself. */
  datatype Environment = Environment(fold: Fold, syntax: DecimalSyntax, tables: EnumTables, locations: map<string, string>)

  /** `DEFAULT_ENGINE_CODE` */
  const DefaultEngineCode: string := "-"

  /** `cleaned.get(key)` */
  function Get<V>(m: map<string, V>, key: string): (r: Option<V>)
    ensures r.Some? <==> key in m
    ensures r.Some? ==> r.value == m[key]
  {
    if key in m then Some(m[key]) else None
  }

  // ---------------------------------------------------------------- _prepare_value

  /** `_prepare_value`: None becomes "", the value is stripped, and any case variant of NULL is blanked. */
  function PrepareValue(value: Option<string>): (r: string)
    ensures value.None? ==> r == ""
    ensures value.Some? && Upper(Strip(value.value)) == "NULL" ==> r == ""
    ensures value.Some? && Upper(Strip(value.value)) != "NULL" ==> r == Strip(value.value)
    ensures r == [] || (!IsSpace(r[0]) && !IsSpace(r[|r| - 1]))
    ensures Upper(r) != "NULL"
  {
    if value.None? then ""
    else
      var result := Strip(value.value);
      if Upper(result) == "NULL" then "" else result
  }

  /** A prepared value is prepared already: preparing it again changes nothing. */
  lemma PrepareValueIdempotent(value: Option<string>)
    ensures PrepareValue(Some(PrepareValue(value))) == PrepareValue(value)
  {
    StripUnchanged(PrepareValue(value));
  }

  // ---------------------------------------------------------------- _prepare_numeric

  /** `raw.replace(" ", "").replace(",", ".")` */
  function Rewrite(raw: string): (r: string)
    ensures ' ' !in r && ',' !in r
    ensures |r| <= |raw|
  {
    if raw == [] then "" else Rewrite(raw[..|raw| - 1]) + RewriteChar(raw[|raw| - 1])
  }

  /** What the two replacements make of one character. */
  function RewriteChar(c: char): (r: string)
    ensures ' ' !in r && ',' !in r && |r| <= 1
  {
    if c == ' ' then "" else if c == ',' then "." else [c]
  }

  /** The rewriting works character by character. */
  lemma {:induction false} RewriteAppend(a: string, b: string)
    ensures Rewrite(a + b) == Rewrite(a) + Rewrite(b)
    decreases |b|
  {
    if b != [] {
      var init := b[..|b| - 1];
      assert (a + b)[..|a + b| - 1] == a + init;
      assert (a + b)[|a + b| - 1] == b[|b| - 1];
      RewriteAppend(a, init);
      calc {
        Rewrite(a + b);
        Rewrite(a + init) + RewriteChar(b[|b| - 1]);
        Rewrite(a) + Rewrite(init) + RewriteChar(b[|b| - 1]);
        Rewrite(a) + Rewrite(b);
      }
    } else {
      assert a + b == a;
    }
  }

  /** Every character other than a space or a comma is kept, in place. */
  lemma {:induction false} RewriteKeeps(raw: string)
    requires ' ' !in raw && ',' !in raw
    ensures Rewrite(raw) == raw
  {
    if raw != [] {
      var init := raw[..|raw| - 1];
      var c := raw[|raw| - 1];
      assert raw == init + [c];
      assert ' ' !in init && ',' !in init && c != ' ' && c != ',';
      RewriteKeeps(init);
      assert Rewrite(raw) == Rewrite(init) + RewriteChar(c);
      assert RewriteChar(c) == [c];
    }
  }

  /** The rewriting removes only spaces: it is empty exactly when `raw` is all spaces. */
  lemma {:induction false} RewriteEmpty(raw: string)
    ensures Rewrite(raw) == "" <==> forall i :: 0 <= i < |raw| ==> raw[i] == ' '
  {
    if raw != [] {
      RewriteEmpty(raw[..|raw| - 1]);
      assert forall i :: 0 <= i < |raw| - 1 ==> raw[..|raw| - 1][i] == raw[i];
    }
  }

  /** `_prepare_numeric`: spaces dropped, commas turned into dots, and an empty result is None. */
  function PrepareNumeric(raw: Option<string>): (r: Option<string>)
    ensures raw.None? ==> r.None?
    ensures r.Some? ==> r.value != "" && ' ' !in r.value && ',' !in r.value
    ensures raw.Some? ==> (r.None? <==> forall i :: 0 <= i < |raw.value| ==> raw.value[i] == ' ')
    ensures raw.Some? && r.Some? ==> r.value == Rewrite(raw.value)
  {
    if raw.None? then None
    else
      RewriteEmpty(raw.value);
      var value := Rewrite(raw.value);
      if value != "" then Some(value) else None
  }

  /** A text already without spaces and commas comes back unchanged. */
  lemma PrepareNumericIdempotent(raw: Option<string>)
    requires PrepareNumeric(raw).Some?
    ensures PrepareNumeric(PrepareNumeric(raw)) == PrepareNumeric(raw)
  {
    RewriteKeeps(PrepareNumeric(raw).value);
  }

  // ---------------------------------------------------------------- _normalise_integer / _normalise_decimal

  /** `Decimal(_prepare_numeric(raw))` for a non-empty `raw`: None when any step gives nothing. */
  function ParsedNumber(syntax: DecimalSyntax, raw: Option<string>): (r: Option<Decimal>)
    ensures raw.None? || raw.value == "" ==> r.None?
    ensures r.Some? ==> PrepareNumeric(raw).Some? && syntax(PrepareNumeric(raw).value) == r
  {
    if raw.None? || raw.value == "" then None
    else
      match PrepareNumeric(raw)
      case None => None
      case Some(value) => ParseDecimal(syntax, value)
  }

  /**
   * `_normalise_integer`: the value rounded half up to an integer; empty or unparsable
   * input gives the fallback ("0" with `allowZero`, "" otherwise), and so does a zero
   * value without `allowZero`.
   */
  function NormaliseInteger(syntax: DecimalSyntax, raw: Option<string>, allowZero: bool): (r: string)
    ensures ParsedNumber(syntax, raw).None? ==> r == (if allowZero then "0" else "")
    ensures ParsedNumber(syntax, raw).Some? && ParsedNumber(syntax, raw).value.coefficient == 0 && !allowZero ==> r == ""
    ensures ParsedNumber(syntax, raw).Some? && (allowZero || ParsedNumber(syntax, raw).value.coefficient != 0) ==>
      r == IntToText(RoundHalfUp(ParsedNumber(syntax, raw).value.Value()))
    ensures allowZero ==> r != ""
    ensures r == "" || forall i :: 0 <= i < |r| ==> r[i] == '-' || '0' <= r[i] <= '9'
  {
    var fallback := if allowZero then "0" else "";
    match ParsedNumber(syntax, raw)
    case None => fallback
    case Some(d) =>
      if !allowZero && d.coefficient == 0 then "" else IntToText(RoundHalfUp(d.Value()))
  }

  /** `Decimal(str(n))` is `n`: what `Decimal` does with the text of an integer. */
  ghost predicate ReadsIntegers(syntax: DecimalSyntax) {
    forall n: int ::
      syntax(IntToText(n)) == Some(Decimal(n < 0, if n < 0 then -n else n, 0))
  }

  lemma IntegerValue(n: int)
    ensures Decimal(n < 0, if n < 0 then -n else n, 0).Value() == n as real
  {
  }

  /** A non-empty normalised integer is the text of an integer. */
  lemma NormalisedIntegerIsText(syntax: DecimalSyntax, raw: Option<string>, allowZero: bool)
    ensures var r := NormaliseInteger(syntax, raw, allowZero);
      r != "" ==> exists n :: r == IntToText(n)
  {
    var r := NormaliseInteger(syntax, raw, allowZero);
    if r != "" {
      if ParsedNumber(syntax, raw).None? {
        assert r == IntToText(0);
      } else {
        assert r == IntToText(RoundHalfUp(ParsedNumber(syntax, raw).value.Value()));
      }
    }
  }

  /** The text of an integer normalises to itself, except "0" when zero is not allowed. */
  lemma NormaliseIntegerOfText(syntax: DecimalSyntax, n: int, allowZero: bool)
    requires ReadsIntegers(syntax)
    ensures NormaliseInteger(syntax, Some(IntToText(n)), allowZero) == if n == 0 && !allowZero then "" else IntToText(n)
  {
    var t := IntToText(n);
    RewriteKeeps(t);
    assert PrepareNumeric(Some(t)) == Some(t);
    assert ParsedNumber(syntax, Some(t)) == Some(Decimal(n < 0, if n < 0 then -n else n, 0));
    IntegerValue(n);
    RoundHalfUpOfInteger(n);
  }

  /**
   * Normalising an already normalised integer keeps it, except that a "0" produced by
   * rounding a small non-zero value (such as "0.4") is blanked the second time round
   * when zero is not allowed.
   */
  lemma NormaliseIntegerTwice(syntax: DecimalSyntax, raw: Option<string>, allowZero: bool)
    requires ReadsIntegers(syntax)
    ensures var r := NormaliseInteger(syntax, raw, allowZero);
      NormaliseInteger(syntax, Some(r), allowZero) == if r == "0" && !allowZero then "" else r
  {
    var r := NormaliseInteger(syntax, raw, allowZero);
    NormalisedIntegerIsText(syntax, raw, allowZero);
    if r != "" {
      var n :| r == IntToText(n);
      NormaliseIntegerOfText(syntax, n, allowZero);
      IntToTextZero(n);
    }
  }

  /**
   * `_normalise_decimal`: `format(Decimal(value).normalize(), "f")`, or "" for empty or
   * unparsable input. The text is plain fixed notation without trailing fractional zeros
   * that reads back as the parsed amount.
   */
  function NormaliseDecimal(syntax: DecimalSyntax, raw: Option<string>): string {
    match ParsedNumber(syntax, raw)
    case None => ""
    case Some(d) => FormatPlain(d)
  }

  /**
   * A number that does not parse gives ""; one that parses is written in plain notation,
   * without trailing fractional zeros, and reads back as the same value.
   */
  lemma NormaliseDecimalMeaning(syntax: DecimalSyntax, raw: Option<string>)
    ensures var r := NormaliseDecimal(syntax, raw);
      && (ParsedNumber(syntax, raw).None? ==> r == "")
      && (ParsedNumber(syntax, raw).Some? ==>
            && FixedNotation(r)
            && ReadFixed(r).Value() == ParsedNumber(syntax, raw).value.Value()
            && ('.' in r ==> r[|r| - 1] != '0'))
  {
    if ParsedNumber(syntax, raw).Some? {
      FormatPlainMinimal(ParsedNumber(syntax, raw).value);
    }
  }

  function NormaliseDate(raw: Option<string>): (r: string)
    ensures ' ' !in r
    ensures raw.None? ==> r == ""
    ensures raw.Some? ==> r <= raw.value
    ensures raw.Some? && ' ' !in raw.value ==> r == raw.value
    ensures raw.Some? && ' ' in raw.value ==> r == raw.value[..IndexOf(raw.value, ' ')]
  {
    if raw.None? || raw.value == "" then "" else Split(raw.value, ' ')[0]
  }

  /** Cutting at the first space twice is cutting once. */
  lemma NormaliseDateIdempotent(raw: Option<string>)
    ensures NormaliseDate(Some(NormaliseDate(raw))) == NormaliseDate(raw)
  {
  }

  // ---------------------------------------------------------------- _normalise_key / _map_enum

  /** The characters `[a-z0-9]` that `_normalise_key` keeps. */
  predicate KeyChar(c: char) {
    'a' <= c <= 'z' || '0' <= c <= '9'
  }

  predicate IsKey(s: string) {
    forall i :: 0 <= i < |s| ==> KeyChar(s[i])
  }

  /** `re.sub(r"[^a-z0-9]", "", s)` */
  function KeepKeyChars(s: string): (r: string)
    ensures IsKey(r)
    ensures IsKey(s) ==> r == s
  {
    if s == [] then ""
    else
      var rest := KeepKeyChars(s[..|s| - 1]);
      var c := s[|s| - 1];
      if KeyChar(c) then rest + [c] else rest
  }

  /** The filter takes one character at a time: a key character is kept, any other dropped. */
  lemma KeepKeyCharsOne(c: char)
    ensures KeepKeyChars([c]) == if KeyChar(c) then [c] else []
  {
    assert [c][..0] == [];
  }

  /** The filter works piecewise: the characters kept from `a + b` are those kept from `a`, then those kept from `b`. */
  lemma {:induction false} KeepKeyCharsAppend(a: string, b: string)
    ensures KeepKeyChars(a + b) == KeepKeyChars(a) + KeepKeyChars(b)
  {
    if b == [] {
      assert a + b == a;
    } else {
      var front, c := b[..|b| - 1], b[|b| - 1];
      var last := if KeyChar(c) then [c] else [];
      KeepKeyCharsAppend(a, front);
      assert (a + b)[..|a + b| - 1] == a + front;
      assert KeepKeyChars(a + b) == KeepKeyChars(a + front) + last;
      assert KeepKeyChars(b) == KeepKeyChars(front) + last;
    }
  }

  /** For example, the fuel name "olej napedowy" reduces to the table key "olejnapedowy". */
  lemma KeepKeyCharsExample()
    ensures KeepKeyChars("olej napedowy") == "olejnapedowy"
  {
    var olej, space, napedowy := "olej", " ", "napedowy";
    assert IsKey(olej) && IsKey(napedowy);
    assert "olej napedowy" == olej + (space + napedowy);
    assert "olejnapedowy" == olej + napedowy;
    KeepKeyCharsAppend(olej, space + napedowy);
    KeepKeyCharsAppend(space, napedowy);
    KeepKeyCharsOne(' ');
  }

  /** `_normalise_key`: the folded value, lower-cased, reduced to the characters `[a-z0-9]`. */
  function NormaliseKey(fold: Fold, value: string): (r: string)
    ensures IsKey(r)
  {
    KeepKeyChars(Lower(fold(value)))
  }

  /** A value that is a key already, and that the folding leaves alone, is its own key. */
  lemma NormaliseKeyOfKey(fold: Fold, value: string)
    requires IsKey(value) && fold(value) == value
    ensures NormaliseKey(fold, value) == value
  {
    assert Lower(value) == value;
  }

  /**
   * `_map_enum`: "" for an empty value (whatever `allowEmpty` says); the table's value for
   * the value's key when that is non-empty; otherwise `strip().upper()` with `defaultUpper`, or "".
   */
  function MapEnum(fold: Fold, value: Option<string>, mapping: map<string, string>, defaultUpper: bool, allowEmpty: bool): string
  {
    if value.None? || value.value == "" then (if allowEmpty then "" else "")
    else
      var key := NormaliseKey(fold, value.value);
      if key in mapping && mapping[key] != "" then mapping[key]
      else if defaultUpper then Upper(Strip(value.value)) else ""
  }

  /**
   * The three outcomes of `_map_enum`, and what they have in common: the result is "",
   * a value of the table, or the stripped and upper-cased input.
   */
  lemma MapEnumCases(fold: Fold, value: Option<string>, mapping: map<string, string>, defaultUpper: bool, allowEmpty: bool)
    ensures var r := MapEnum(fold, value, mapping, defaultUpper, allowEmpty);
      && (value.None? || value.value == "" ==> r == "")
      && (value.Some? && value.value != "" && NormaliseKey(fold, value.value) in mapping && mapping[NormaliseKey(fold, value.value)] != "" ==>
            r == mapping[NormaliseKey(fold, value.value)])
      && (value.Some? && value.value != "" && (NormaliseKey(fold, value.value) !in mapping || mapping[NormaliseKey(fold, value.value)] == "") ==>
            r == if defaultUpper then Upper(Strip(value.value)) else "")
      && (r == "" || r in mapping.Values || (defaultUpper && value.Some? && r == Upper(Strip(value.value))))
  {
    var r := MapEnum(fold, value, mapping, defaultUpper, allowEmpty);
    if value.Some? && value.value != "" {
      var key := NormaliseKey(fold, value.value);
      if key in mapping && mapping[key] != "" {
        assert r == mapping[key];
      }
    }
  }

  /** `allow_empty` makes no difference: both branches of line 121 give "". */
  lemma MapEnumIgnoresAllowEmpty(fold: Fold, value: Option<string>, mapping: map<string, string>, defaultUpper: bool)
    ensures MapEnum(fold, value, mapping, defaultUpper, true) == MapEnum(fold, value, mapping, defaultUpper, false)
  {
  }

  /** A table's keys are reachable: each is mapped to its value when the folding leaves it alone. */
  lemma MapEnumOfTableKey(fold: Fold, mapping: map<string, string>, key: string, defaultUpper: bool, allowEmpty: bool)
    requires key in mapping && mapping[key] != "" && key != ""
    requires IsKey(key) && fold(key) == key
    ensures MapEnum(fold, Some(key), mapping, defaultUpper, allowEmpty) == mapping[key]
  {
    NormaliseKeyOfKey(fold, key);
  }

  /** `CATEGORY_MAP` */
  const CategoryMap: map<string, string> := map[
    "osobowy" := "PASSENGER",
    "dostawczy" := "DELIVERY"]

  /** `FUEL_MAP` */
  const FuelMap: map<string, string> := map[
    "etylina" := "PETROL",
    "benzyna" := "PETROL",
    "olejnapedowy" := "DIESEL",
    "diesel" := "DIESEL",
    "hybrydaetylnanapedelektryczny" := "HYBRID",
    "hybrydaetylinanapedelektr" := "HYBRID",
    "hybrydapluginelektric" := "HYBRID",
    "hybrydaetylnaplusnapedelektryczny" := "HYBRID",
    "hybrydowy" := "HYBRID",
    "lpg" := "LPG",
    "elektryczny" := "ELECTRIC"]

  /** `TRANSMISSION_MAP` */
  const TransmissionMap: map<string, string> := map[
    "automatycznahydraulicznaklasyczna" := "AUTOMATIC",
    "automatyczna" := "AUTOMATIC",
    "manualna" := "MANUAL",
    "automat" := "AUTOMATIC"]

  /** `DRIVE_WHEELS_MAP` */
  const DriveWheelsMap: map<string, string> := map[
    "naprzedniekola" := "FRONT",
    "naprzedniekoa" := "FRONT",
    "naprzod" := "FRONT",
    "naautonomiczneprzod" := "FRONT",
    "natylniekola" := "REAR",
    "4x4" := "FOUR",
    "4x4staly" := "FOUR",
    "4x4stay" := "FOUR",
    "4x4automatyczny" := "FOUR",
    "4wd" := "FOUR"]

  /** `VEHICLE_TYPE_MAP` */
  const VehicleTypeMap: map<string, string> := map[
    "suv" := "SUV",
    "kombi" := "ESTATE",
    "hatchback" := "HATCHBACK",
    "van" := "VAN",
    "sedan" := "SALOON",
    "limuzyna" := "SALOON",
    "autamiejskie" := "HATCHBACK",
    "kompakt" := "HATCHBACK"]

  /** `CAR_CLASS_MAP` */
  const CarClassMap: map<string, string> := map[
    "business" := "BUSINESS",
    "family" := "FAMILY",
    "sweet" := "SWEET",
    "adrenaline" := "ADRENALINE"]

  /** A non-empty upper-case word. */
  predicate UpperWord(w: string) {
    w != "" && forall i :: 0 <= i < |w| ==> 'A' <= w[i] <= 'Z'
  }

  /** The values of an enumeration table are non-empty upper-case words. */
  predicate CanonicalValues(mapping: map<string, string>) {
    forall k :: k in mapping ==> UpperWord(mapping[k])
  }

  lemma CategoryMapCanonical()
    ensures CanonicalValues(CategoryMap)
  {
    assert UpperWord("PASSENGER") && UpperWord("DELIVERY");
  }

  lemma FuelMapCanonical()
    ensures CanonicalValues(FuelMap)
  {
    assert UpperWord("PETROL") && UpperWord("DIESEL") && UpperWord("HYBRID") && UpperWord("LPG") && UpperWord("ELECTRIC");
  }

  lemma TransmissionMapCanonical()
    ensures CanonicalValues(TransmissionMap)
  {
    assert UpperWord("AUTOMATIC") && UpperWord("MANUAL");
  }

  lemma DriveWheelsMapCanonical()
    ensures CanonicalValues(DriveWheelsMap)
  {
    assert UpperWord("FRONT") && UpperWord("REAR") && UpperWord("FOUR");
  }

  lemma VehicleTypeMapCanonical()
    ensures CanonicalValues(VehicleTypeMap)
  {
    assert UpperWord("SUV") && UpperWord("ESTATE") && UpperWord("HATCHBACK") && UpperWord("VAN") && UpperWord("SALOON");
  }

  lemma CarClassMapCanonical()
    ensures CanonicalValues(CarClassMap)
  {
    assert UpperWord("BUSINESS") && UpperWord("FAMILY") && UpperWord("SWEET") && UpperWord("ADRENALINE");
  }

  /**
   * With an upper-casing default, a mapped enumeration is already in the form that
   * `_normalise_enum` gives when the row is validated: strip and upper-case change nothing.
   */
  lemma MappedEnumIsCanonical(fold: Fold, value: Option<string>, mapping: map<string, string>, allowEmpty: bool)
    requires CanonicalValues(mapping)
    ensures var r := MapEnum(fold, value, mapping, true, allowEmpty);
      Upper(Strip(r)) == r
  {
    var r := MapEnum(fold, value, mapping, true, allowEmpty);
    MapEnumCases(fold, value, mapping, true, allowEmpty);
    if r != "" && value.Some? && r == Upper(Strip(value.value)) {
      StripUpperIdempotent(value.value);
    } else if r != "" {
      var key := NormaliseKey(fold, value.value);
      assert r == mapping[key];
      StripUnchanged(r);
      UpperUnchanged(r);
    }
  }

  // ---------------------------------------------------------------- _map_location

  /** `_map_location`: the stripped partner id looked up in the location table, "" when absent. */
  function MapLocation(locations: map<string, string>, value: Option<string>): (r: string)
    ensures value.None? || value.value == "" ==> r == ""
    ensures value.Some? && value.value != "" && Strip(value.value) in locations ==> r == locations[Strip(value.value)]
    ensures value.Some? && value.value != "" && Strip(value.value) !in locations ==> r == ""
  {
    if value.None? || value.value == "" then ""
    else
      var partnerId := Strip(value.value);
      if partnerId in locations then locations[partnerId] else ""
  }

  /** Surrounding whitespace does not change the location found. */
  lemma MapLocationIgnoresSpace(locations: map<string, string>, a: string, b: string)
    requires a != "" && b != "" && Strip(a) == Strip(b)
    ensures MapLocation(locations, Some(a)) == MapLocation(locations, Some(b))
  {
  }

  // ---------------------------------------------------------------- _normalise_description

  /** Non-empty, with no whitespace at either end. */
  predicate Trimmed(s: string) {
    s != "" && !IsSpace(s[0]) && !IsSpace(s[|s| - 1])
  }

  /** `[part.strip() for part in pieces if part.strip()]` */
  function NonBlank(pieces: seq<string>): seq<string> {
    if pieces == [] then []
    else
      var rest := NonBlank(pieces[..|pieces| - 1]);
      var part := Strip(pieces[|pieces| - 1]);
      if part == "" then rest else rest + [part]
  }

  /** The kept parts are trimmed, and they are exactly the non-blank stripped pieces. */
  lemma {:induction false} NonBlankMembers(pieces: seq<string>)
    ensures forall x :: x in NonBlank(pieces) ==> Trimmed(x)
    ensures forall x :: x in NonBlank(pieces) ==> exists p :: p in pieces && x == Strip(p)
    ensures forall p :: p in pieces && Strip(p) != "" ==> Strip(p) in NonBlank(pieces)
  {
    if pieces != [] {
      var init, last := pieces[..|pieces| - 1], pieces[|pieces| - 1];
      NonBlankMembers(init);
      var r := NonBlank(pieces);
      assert r == NonBlank(init) || (Strip(last) != "" && r == NonBlank(init) + [Strip(last)]);
      forall x | x in r
        ensures Trimmed(x)
      {
        if x !in NonBlank(init) {
          assert x == Strip(last);
        }
      }
      forall x | x in r
        ensures exists p :: p in pieces && x == Strip(p)
      {
        if x in NonBlank(init) {
          var p :| p in init && x == Strip(p);
          assert p in pieces;
        } else {
          assert last in pieces && x == Strip(last);
        }
      }
      forall p | p in pieces && Strip(p) != ""
        ensures Strip(p) in r
      {
        var i :| 0 <= i < |pieces| && pieces[i] == p;
        if i < |pieces| - 1 {
          assert init[i] == p;
        }
      }
    }
  }

  /**
   * The parts of a description: `re.split(r"\s*\|\s*", value)` followed by `strip()` is the
   * same as splitting on `|` and stripping each piece.
   */
  function DescriptionParts(value: string): seq<string> {
    NonBlank(Split(value, '|'))
  }

  /** The lower-cased forms of `items`: what `seen` holds once they were visited. */
  function LowerSet(items: seq<string>): set<string> {
    set x | x in items :: Lower(x)
  }

  /** The items whose lower-cased form was not seen before, in order. */
  function Dedup(items: seq<string>): seq<string> {
    if items == [] then []
    else
      var init := items[..|items| - 1];
      var last := items[|items| - 1];
      if Lower(last) in LowerSet(init) then Dedup(init) else Dedup(init) + [last]
  }

  /** `_normalise_description`'s result, stated on values. */
  function DescriptionText(value: string): string {
    var parts := DescriptionParts(value);
    if parts == [] then Strip(value) else Join("\n", Dedup(parts))
  }

  lemma LowerSetStep(items: seq<string>, i: nat)
    requires i < |items|
    ensures LowerSet(items[..i + 1]) == LowerSet(items[..i]) + {Lower(items[i])}
  {
    assert items[..i + 1] == items[..i] + [items[i]];
  }

  /** `_normalise_description`: split on `|`, strip, drop blanks, keep the first of each case-insensitive repeat, join by lines. */
  method NormaliseDescription(value: string) returns (r: string)
    ensures r == DescriptionText(value)
  {
    var parts := NonBlank(Split(value, '|'));
    if parts == [] {
      return Strip(value);
    }
    var deduplicated: seq<string> := [];
    var seen: set<string> := {};
    for i := 0 to |parts|
      invariant deduplicated == Dedup(parts[..i])
      invariant seen == LowerSet(parts[..i])
    {
      var item := parts[i];
      var key := Lower(item);
      LowerSetStep(parts, i);
      assert parts[..i + 1][..i] == parts[..i];
      if key in seen {
        continue;
      }
      seen := seen + {key};
      deduplicated := deduplicated + [item];
    }
    assert parts[..|parts|] == parts;
    return Join("\n", deduplicated);
  }

  /** Every kept item is one of the items. */
  lemma {:induction false} DedupKeepsItems(items: seq<string>)
    ensures forall x :: x in Dedup(items) ==> x in items
  {
    if items != [] {
      var init := items[..|items| - 1];
      DedupKeepsItems(init);
      assert forall x :: x in init ==> x in items;
    }
  }

  /** Every item is represented: its lower-cased form is among the kept ones'. */
  lemma {:induction false} DedupCovers(items: seq<string>)
    ensures LowerSet(Dedup(items)) == LowerSet(items)
  {
    if items != [] {
      var init := items[..|items| - 1];
      DedupCovers(init);
      LowerSetStep(items, |items| - 1);
      assert items[..|items| - 1 + 1] == items;
      if Lower(items[|items| - 1]) !in LowerSet(init) {
        LowerSetStep(Dedup(items), |Dedup(items)| - 1);
        assert Dedup(items)[..|Dedup(items)| - 1] == Dedup(init);
        assert Dedup(items)[..|Dedup(items)| - 1 + 1] == Dedup(items);
      }
    }
  }

  /** No two kept items are the same ignoring case. */
  lemma {:induction false} DedupDistinct(items: seq<string>)
    ensures var d := Dedup(items);
      forall i, j :: 0 <= i < j < |d| ==> Lower(d[i]) != Lower(d[j])
  {
    if items != [] {
      var init := items[..|items| - 1];
      var last := items[|items| - 1];
      DedupDistinct(init);
      DedupCovers(init);
      var d := Dedup(items);
      if Lower(last) !in LowerSet(init) {
        forall i | 0 <= i < |d| - 1
          ensures Lower(d[i]) != Lower(last)
        {
          assert d[i] == Dedup(init)[i];
          assert Lower(d[i]) in LowerSet(Dedup(init));
        }
      }
    }
  }

  /** Each kept item is the first of its case-insensitive class. */
  lemma {:induction false} DedupKeepsFirst(items: seq<string>)
    ensures forall x :: x in Dedup(items) ==>
      exists i :: 0 <= i < |items| && items[i] == x && Lower(x) !in LowerSet(items[..i])
  {
    if items != [] {
      var init := items[..|items| - 1];
      var last := items[|items| - 1];
      DedupKeepsFirst(init);
      forall x | x in Dedup(items)
        ensures exists i :: 0 <= i < |items| && items[i] == x && Lower(x) !in LowerSet(items[..i])
      {
        if x in Dedup(init) {
          var i :| 0 <= i < |init| && init[i] == x && Lower(x) !in LowerSet(init[..i]);
          assert items[i] == x && items[..i] == init[..i];
        } else {
          assert x == last && Lower(last) !in LowerSet(init);
          assert items[..|items| - 1] == init;
        }
      }
    }
  }

  /** Order is kept: deduplicating a prefix gives a prefix of the result. */
  lemma {:induction false} DedupPrefix(items: seq<string>, n: nat)
    requires n <= |items|
    ensures Dedup(items[..n]) <= Dedup(items)
    decreases |items|
  {
    if n < |items| {
      var init := items[..|items| - 1];
      assert items[..n] == init[..n];
      DedupPrefix(init, n);
    } else {
      assert items[..n] == items;
    }
  }

  // ---------------------------------------------------------------- clean_row

  /** `cleaned.get(key)` right after the dictionary comprehension of line 21. */
  function PreparedAt(row: map<string, Option<string>>, key: string): (r: Option<string>)
    ensures r.Some? <==> key in row
  {
    if key in row then Some(PrepareValue(row[key])) else None
  }

  /** The dictionary comprehension of line 21: every value prepared. */
  function Prepared(row: map<string, Option<string>>): (r: map<string, string>)
    ensures forall k :: k in r <==> k in row
    ensures forall key :: Get(r, key) == PreparedAt(row, key)
  {
    map key | key in row :: PrepareValue(row[key])
  }

  /** `after` differs from `before` at most on `touched`, which it all has. */
  ghost predicate SetOnly(before: map<string, string>, after: map<string, string>, touched: set<string>) {
    && (forall k :: k in after <==> k in before || k in touched)
    && (forall k :: k in before && k !in touched ==> after[k] == before[k])
  }

  const EnumKeys: set<string> := {"category", "fuelType", "transmissionType", "driveWheels", "type", "carClass"}
  const IntegerKeys: set<string> := {"manufactureYear", "mileage", "power", "doors"}
  const DecimalKeys: set<string> := {"cubicCapacity", "acceleration", "pricing_listPrice", "pricing_salesPrice", "pricing_miniPrice"}
  const DateKeys: set<string> := {"availableFrom", "firstRegistrationDate"}
  const LocationKeys: set<string> := {"locationId"}

  /** Each key `clean_row` normalises belongs to exactly one of its steps. */
  lemma KeyGroupsDisjoint()
    ensures "category" in EnumKeys && "fuelType" in EnumKeys && "transmissionType" in EnumKeys
    ensures "driveWheels" in EnumKeys && "type" in EnumKeys && "carClass" in EnumKeys
    ensures "manufactureYear" in IntegerKeys && "mileage" in IntegerKeys && "power" in IntegerKeys && "doors" in IntegerKeys
    ensures "cubicCapacity" in DecimalKeys && "acceleration" in DecimalKeys && "pricing_listPrice" in DecimalKeys
    ensures "pricing_salesPrice" in DecimalKeys && "pricing_miniPrice" in DecimalKeys
    ensures "availableFrom" in DateKeys && "firstRegistrationDate" in DateKeys && "locationId" in LocationKeys
    ensures EnumKeys !! IntegerKeys && EnumKeys !! DecimalKeys && EnumKeys !! DateKeys && EnumKeys !! LocationKeys
    ensures IntegerKeys !! DecimalKeys && IntegerKeys !! DateKeys && IntegerKeys !! LocationKeys
    ensures DecimalKeys !! DateKeys && DecimalKeys !! LocationKeys && DateKeys !! LocationKeys
    ensures "engineCode" !in EnumKeys && "engineCode" !in IntegerKeys && "engineCode" !in DecimalKeys && "engineCode" !in DateKeys
    ensures "description" !in EnumKeys && "description" !in IntegerKeys && "description" !in DecimalKeys && "description" !in DateKeys
    ensures "engineCode" !in LocationKeys && "description" !in LocationKeys
  {
    KeyNamesDiffer();
  }

  /** The six enumeration tables `clean_row` uses. */
  datatype EnumTables = EnumTables(
    category: map<string, string>,
    fuel: map<string, string>,
    transmission: map<string, string>,
    driveWheels: map<string, string>,
    vehicleType: map<string, string>,
    carClass: map<string, string>)

  const Tables: EnumTables := EnumTables(CategoryMap, FuelMap, TransmissionMap, DriveWheelsMap, VehicleTypeMap, CarClassMap)

  /** The key names of equal length differ, so storing one of them leaves the others alone. */
  lemma KeyNamesDiffer()
    ensures "category" != "fuelType" && "category" != "carClass" && "fuelType" != "carClass"
    ensures "driveWheels" != "description" && "engineCode" != "locationId" && "power" != "doors"
    ensures "cubicCapacity" != "availableFrom" && "pricing_listPrice" != "pricing_miniPrice"
  {
    assert "category"[0] != "fuelType"[0];
    assert "category"[2] != "carClass"[2];
    assert "fuelType"[0] != "carClass"[0];
    assert "driveWheels"[1] != "description"[1];
    assert "engineCode"[0] != "locationId"[0];
    assert "power"[0] != "doors"[0];
    assert "cubicCapacity"[0] != "availableFrom"[0];
    assert "pricing_listPrice"[8] != "pricing_miniPrice"[8];
  }

  /** Lines 23-30: each enumeration of `r` is its table's reading of the value in `src`. */
  ghost predicate EnumsCleaned(src: map<string, string>, fold: Fold, tables: EnumTables, r: map<string, string>) {
    && "category" in r && r["category"] == MapEnum(fold, Get(src, "category"), tables.category, true, false)
    && "fuelType" in r && r["fuelType"] == MapEnum(fold, Get(src, "fuelType"), tables.fuel, true, false)
    && "transmissionType" in r && r["transmissionType"] == MapEnum(fold, Get(src, "transmissionType"), tables.transmission, true, false)
    && "driveWheels" in r && r["driveWheels"] == MapEnum(fold, Get(src, "driveWheels"), tables.driveWheels, true, false)
    && "type" in r && r["type"] == MapEnum(fold, Get(src, "type"), tables.vehicleType, true, false)
    && "carClass" in r && r["carClass"] == MapEnum(fold, Get(src, "carClass"), tables.carClass, false, true)
  }

  /** Lines 32-33: the engine code of `r` is that of `src`, an empty one replaced by the default. */
  ghost predicate EngineCodeCleaned(src: map<string, string>, r: map<string, string>) {
    Get(r, "engineCode") == if Get(src, "engineCode") == Some("") then Some(DefaultEngineCode) else Get(src, "engineCode")
  }

  /** Lines 35-38: each integer of `r` is the normalised value in `src`; zero is kept for the doors only. */
  ghost predicate IntegersCleaned(src: map<string, string>, syntax: DecimalSyntax, r: map<string, string>) {
    && "manufactureYear" in r && r["manufactureYear"] == NormaliseInteger(syntax, Get(src, "manufactureYear"), false)
    && "mileage" in r && r["mileage"] == NormaliseInteger(syntax, Get(src, "mileage"), false)
    && "power" in r && r["power"] == NormaliseInteger(syntax, Get(src, "power"), false)
    && "doors" in r && r["doors"] == NormaliseInteger(syntax, Get(src, "doors"), true)
  }

  /** Lines 40-44: each amount of `r` is the value in `src` in plain notation. */
  ghost predicate DecimalsCleaned(src: map<string, string>, syntax: DecimalSyntax, r: map<string, string>) {
    && "cubicCapacity" in r && r["cubicCapacity"] == NormaliseDecimal(syntax, Get(src, "cubicCapacity"))
    && "acceleration" in r && r["acceleration"] == NormaliseDecimal(syntax, Get(src, "acceleration"))
    && "pricing_listPrice" in r && r["pricing_listPrice"] == NormaliseDecimal(syntax, Get(src, "pricing_listPrice"))
    && "pricing_salesPrice" in r && r["pricing_salesPrice"] == NormaliseDecimal(syntax, Get(src, "pricing_salesPrice"))
    && "pricing_miniPrice" in r && r["pricing_miniPrice"] == NormaliseDecimal(syntax, Get(src, "pricing_miniPrice"))
  }

  /** Lines 46-47: each date of `r` is the value in `src` cut at its first space. */
  ghost predicate DatesCleaned(src: map<string, string>, r: map<string, string>) {
    && "availableFrom" in r && r["availableFrom"] == NormaliseDate(Get(src, "availableFrom"))
    && "firstRegistrationDate" in r && r["firstRegistrationDate"] == NormaliseDate(Get(src, "firstRegistrationDate"))
  }

  /** Lines 50-53: an absent or empty description stays so; a present one is normalised. */
  ghost predicate DescriptionCleaned(src: map<string, string>, r: map<string, string>) {
    Get(r, "description") ==
      if Get(src, "description") == Some("") || Get(src, "description").None? then Get(src, "description")
      else Some(DescriptionText(src["description"]))
  }

  /** Line 55: the location of `r` is the mapped partner location in `src`. */
  ghost predicate LocationCleaned(src: map<string, string>, locations: map<string, string>, r: map<string, string>) {
    "locationId" in r && r["locationId"] == MapLocation(locations, Get(src, "locationId"))
  }

  /** The enumeration rule only looks at the enumeration keys. */
  lemma EnumsCarried(src: map<string, string>, r: map<string, string>, src': map<string, string>, r': map<string, string>, fold: Fold, tables: EnumTables)
    requires EnumsCleaned(src, fold, tables, r)
    requires forall k :: k in EnumKeys ==> Get(src', k) == Get(src, k) && Get(r', k) == Get(r, k)
    ensures EnumsCleaned(src', fold, tables, r')
  {
    KeyGroupsDisjoint();
  }

  /** The integer rule only looks at the integer keys. */
  lemma IntegersCarried(src: map<string, string>, r: map<string, string>, src': map<string, string>, r': map<string, string>, syntax: DecimalSyntax)
    requires IntegersCleaned(src, syntax, r)
    requires forall k :: k in IntegerKeys ==> Get(src', k) == Get(src, k) && Get(r', k) == Get(r, k)
    ensures IntegersCleaned(src', syntax, r')
  {
    KeyGroupsDisjoint();
  }

  /** The amount rule only looks at the amount keys. */
  lemma DecimalsCarried(src: map<string, string>, r: map<string, string>, src': map<string, string>, r': map<string, string>, syntax: DecimalSyntax)
    requires DecimalsCleaned(src, syntax, r)
    requires forall k :: k in DecimalKeys ==> Get(src', k) == Get(src, k) && Get(r', k) == Get(r, k)
    ensures DecimalsCleaned(src', syntax, r')
  {
    KeyGroupsDisjoint();
  }

  /** The date rule only looks at the date keys. */
  lemma DatesCarried(src: map<string, string>, r: map<string, string>, src': map<string, string>, r': map<string, string>)
    requires DatesCleaned(src, r)
    requires forall k :: k in DateKeys ==> Get(src', k) == Get(src, k) && Get(r', k) == Get(r, k)
    ensures DatesCleaned(src', r')
  {
    KeyGroupsDisjoint();
  }

  /** Storing the six enumerations sets exactly the enumeration keys, each to its own value. */
  lemma EnumsStored(m: map<string, string>, category: string, fuelType: string, transmissionType: string,
                    driveWheels: string, vehicleType: string, carClass: string)
    ensures var r := m["category" := category]["fuelType" := fuelType]["transmissionType" := transmissionType]
      ["driveWheels" := driveWheels]["type" := vehicleType]["carClass" := carClass];
      && SetOnly(m, r, EnumKeys)
      && r["category"] == category && r["fuelType"] == fuelType && r["transmissionType"] == transmissionType
      && r["driveWheels"] == driveWheels && r["type"] == vehicleType && r["carClass"] == carClass
  {
    KeyNamesDiffer();
  }

  /** Storing the four integers sets exactly the integer keys, each to its own value. */
  lemma IntegersStored(m: map<string, string>, manufactureYear: string, mileage: string, power: string, doors: string)
    ensures var r := m["manufactureYear" := manufactureYear]["mileage" := mileage]["power" := power]["doors" := doors];
      && SetOnly(m, r, IntegerKeys)
      && r["manufactureYear"] == manufactureYear && r["mileage"] == mileage && r["power"] == power && r["doors"] == doors
  {
    KeyNamesDiffer();
  }

  /** Storing the five amounts sets exactly the amount keys, each to its own value. */
  lemma DecimalsStored(m: map<string, string>, cubicCapacity: string, acceleration: string, listPrice: string,
                       salesPrice: string, miniPrice: string)
    ensures var r := m["cubicCapacity" := cubicCapacity]["acceleration" := acceleration]["pricing_listPrice" := listPrice]
      ["pricing_salesPrice" := salesPrice]["pricing_miniPrice" := miniPrice];
      && SetOnly(m, r, DecimalKeys)
      && r["cubicCapacity"] == cubicCapacity && r["acceleration"] == acceleration && r["pricing_listPrice"] == listPrice
      && r["pricing_salesPrice"] == salesPrice && r["pricing_miniPrice"] == miniPrice
  {
    KeyNamesDiffer();
  }

  /** Storing the two dates sets exactly the date keys, each to its own value. */
  lemma DatesStored(m: map<string, string>, availableFrom: string, firstRegistrationDate: string)
    ensures var r := m["availableFrom" := availableFrom]["firstRegistrationDate" := firstRegistrationDate];
      && SetOnly(m, r, DateKeys)
      && r["availableFrom"] == availableFrom && r["firstRegistrationDate"] == firstRegistrationDate
  {
    KeyNamesDiffer();
  }

  /** Lines 23-30: the enumerations mapped through their tables. */
  method CleanEnums(cleaned: map<string, string>, fold: Fold, tables: EnumTables) returns (r: map<string, string>)
    ensures SetOnly(cleaned, r, EnumKeys)
    ensures EnumsCleaned(cleaned, fold, tables, r)
  {
    var category := MapEnum(fold, Get(cleaned, "category"), tables.category, true, false);
    var fuelType := MapEnum(fold, Get(cleaned, "fuelType"), tables.fuel, true, false);
    var transmissionType := MapEnum(fold, Get(cleaned, "transmissionType"), tables.transmission, true, false);
    var driveWheels := MapEnum(fold, Get(cleaned, "driveWheels"), tables.driveWheels, true, false);
    var vehicleType := MapEnum(fold, Get(cleaned, "type"), tables.vehicleType, true, false);
    var carClass := MapEnum(fold, Get(cleaned, "carClass"), tables.carClass, false, true);
    r := cleaned["category" := category]["fuelType" := fuelType]["transmissionType" := transmissionType]
      ["driveWheels" := driveWheels]["type" := vehicleType]["carClass" := carClass];
    EnumsStored(cleaned, category, fuelType, transmissionType, driveWheels, vehicleType, carClass);
  }

  /** Lines 32-33: an empty engine code becomes the default "-". */
  method CleanEngineCode(cleaned: map<string, string>) returns (r: map<string, string>)
    ensures forall k :: k in r <==> k in cleaned
    ensures forall k :: k in cleaned && k != "engineCode" ==> r[k] == cleaned[k]
    ensures EngineCodeCleaned(cleaned, r)
  {
    r := cleaned;
    if Get(r, "engineCode") == Some("") {
      r := r["engineCode" := DefaultEngineCode];
    }
  }

  /** Lines 35-38: the integers, with zero allowed for the doors only. */
  method CleanIntegers(cleaned: map<string, string>, syntax: DecimalSyntax) returns (r: map<string, string>)
    ensures SetOnly(cleaned, r, IntegerKeys)
    ensures IntegersCleaned(cleaned, syntax, r)
  {
    var manufactureYear := NormaliseInteger(syntax, Get(cleaned, "manufactureYear"), false);
    var mileage := NormaliseInteger(syntax, Get(cleaned, "mileage"), false);
    var power := NormaliseInteger(syntax, Get(cleaned, "power"), false);
    var doors := NormaliseInteger(syntax, Get(cleaned, "doors"), true);
    r := cleaned["manufactureYear" := manufactureYear]["mileage" := mileage]["power" := power]["doors" := doors];
    IntegersStored(cleaned, manufactureYear, mileage, power, doors);
  }

  /** Lines 40-44: the decimal amounts in plain notation. */
  method CleanDecimals(cleaned: map<string, string>, syntax: DecimalSyntax) returns (r: map<string, string>)
    ensures SetOnly(cleaned, r, DecimalKeys)
    ensures DecimalsCleaned(cleaned, syntax, r)
  {
    var cubicCapacity := NormaliseDecimal(syntax, Get(cleaned, "cubicCapacity"));
    var acceleration := NormaliseDecimal(syntax, Get(cleaned, "acceleration"));
    var listPrice := NormaliseDecimal(syntax, Get(cleaned, "pricing_listPrice"));
    var salesPrice := NormaliseDecimal(syntax, Get(cleaned, "pricing_salesPrice"));
    var miniPrice := NormaliseDecimal(syntax, Get(cleaned, "pricing_miniPrice"));
    r := cleaned["cubicCapacity" := cubicCapacity]["acceleration" := acceleration]["pricing_listPrice" := listPrice]
      ["pricing_salesPrice" := salesPrice]["pricing_miniPrice" := miniPrice];
    DecimalsStored(cleaned, cubicCapacity, acceleration, listPrice, salesPrice, miniPrice);
  }

  /** Lines 46-47: the dates cut at the first space. */
  method CleanDates(cleaned: map<string, string>) returns (r: map<string, string>)
    ensures SetOnly(cleaned, r, DateKeys)
    ensures DatesCleaned(cleaned, r)
  {
    var availableFrom := NormaliseDate(Get(cleaned, "availableFrom"));
    var firstRegistrationDate := NormaliseDate(Get(cleaned, "firstRegistrationDate"));
    r := cleaned["availableFrom" := availableFrom]["firstRegistrationDate" := firstRegistrationDate];
    DatesStored(cleaned, availableFrom, firstRegistrationDate);
  }

  /** Lines 50-53: an empty description stays empty, a present one is normalised, an absent one stays absent. */
  method CleanDescription(cleaned: map<string, string>) returns (r: map<string, string>)
    ensures forall k :: k in r <==> k in cleaned
    ensures forall k :: k in cleaned && k != "description" ==> r[k] == cleaned[k]
    ensures DescriptionCleaned(cleaned, r)
  {
    r := cleaned;
    if Get(r, "description") == Some("") {
      r := r["description" := ""];
    } else if Get(r, "description").Some? {
      var description := NormaliseDescription(r["description"]);
      r := r["description" := description];
    }
  }

  /** Line 55: the partner location identifier mapped through the location table. */
  method CleanLocation(cleaned: map<string, string>, locations: map<string, string>) returns (r: map<string, string>)
    ensures forall k :: k in r <==> k in cleaned || k in LocationKeys
    ensures forall k :: k in cleaned && k !in LocationKeys ==> r[k] == cleaned[k]
    ensures LocationCleaned(cleaned, locations, r)
  {
    r := cleaned["locationId" := MapLocation(locations, Get(cleaned, "locationId"))];
  }

  /** Lines 23-33: the enumerations, then the engine-code default. */
  method CleanText(cleaned: map<string, string>, fold: Fold, tables: EnumTables) returns (r: map<string, string>)
    ensures forall k :: k in r <==> k in cleaned || k in EnumKeys
    ensures forall k :: k in cleaned && k !in EnumKeys && k != "engineCode" ==> r[k] == cleaned[k]
    ensures EnumsCleaned(cleaned, fold, tables, r) && EngineCodeCleaned(cleaned, r)
  {
    KeyGroupsDisjoint();
    var enums := CleanEnums(cleaned, fold, tables);
    r := CleanEngineCode(enums);
    forall k | k in EnumKeys
      ensures Get(r, k) == Get(enums, k)
    {
    }
    EnumsCarried(cleaned, enums, cleaned, r, fold, tables);
    assert Get(enums, "engineCode") == Get(cleaned, "engineCode");
  }

  /** Lines 35-44: the integers, then the decimal amounts. */
  method CleanNumbers(cleaned: map<string, string>, syntax: DecimalSyntax) returns (r: map<string, string>)
    ensures forall k :: k in r <==> k in cleaned || k in IntegerKeys || k in DecimalKeys
    ensures forall k :: k in cleaned && k !in IntegerKeys && k !in DecimalKeys ==> r[k] == cleaned[k]
    ensures IntegersCleaned(cleaned, syntax, r) && DecimalsCleaned(cleaned, syntax, r)
  {
    KeyGroupsDisjoint();
    var integers := CleanIntegers(cleaned, syntax);
    r := CleanDecimals(integers, syntax);
    forall k | k in IntegerKeys
      ensures Get(r, k) == Get(integers, k)
    {
      assert k !in DecimalKeys;
    }
    IntegersCarried(cleaned, integers, cleaned, r, syntax);
    forall k | k in DecimalKeys
      ensures Get(integers, k) == Get(cleaned, k)
    {
      assert k !in IntegerKeys;
    }
    DecimalsCarried(integers, r, cleaned, r, syntax);
  }

  /** Lines 50-55: the description, then the location. */
  method CleanTail(cleaned: map<string, string>, locations: map<string, string>) returns (r: map<string, string>)
    ensures forall k :: k in r <==> k in cleaned || k in LocationKeys
    ensures forall k :: k in cleaned && k != "description" && k !in LocationKeys ==> r[k] == cleaned[k]
    ensures DescriptionCleaned(cleaned, r) && LocationCleaned(cleaned, locations, r)
  {
    KeyGroupsDisjoint();
    var described := CleanDescription(cleaned);
    r := CleanLocation(described, locations);
    assert Get(r, "description") == Get(described, "description");
    assert Get(described, "locationId") == Get(cleaned, "locationId");
  }

  /** Lines 23-44: the enumerations, the engine code and the numbers. */
  method CleanFront(cleaned: map<string, string>, env: Environment) returns (r: map<string, string>)
    ensures forall k :: k in r <==> k in cleaned || k in EnumKeys || k in IntegerKeys || k in DecimalKeys
    ensures forall k :: k in cleaned && k !in EnumKeys && k !in IntegerKeys && k !in DecimalKeys && k != "engineCode" ==>
      r[k] == cleaned[k]
    ensures EnumsCleaned(cleaned, env.fold, env.tables, r) && EngineCodeCleaned(cleaned, r)
    ensures IntegersCleaned(cleaned, env.syntax, r) && DecimalsCleaned(cleaned, env.syntax, r)
  {
    KeyGroupsDisjoint();
    var text := CleanText(cleaned, env.fold, env.tables);
    r := CleanNumbers(text, env.syntax);
    forall k | k in EnumKeys
      ensures Get(r, k) == Get(text, k)
    {
      assert k !in IntegerKeys && k !in DecimalKeys;
    }
    EnumsCarried(cleaned, text, cleaned, r, env.fold, env.tables);
    assert Get(r, "engineCode") == Get(text, "engineCode");
    forall k | k in IntegerKeys || k in DecimalKeys
      ensures Get(text, k) == Get(cleaned, k)
    {
      assert k !in EnumKeys && k != "engineCode";
    }
    IntegersCarried(text, r, cleaned, r, env.syntax);
    DecimalsCarried(text, r, cleaned, r, env.syntax);
  }

  /** Lines 46-55: the dates, the description and the location. */
  method CleanBack(cleaned: map<string, string>, locations: map<string, string>) returns (r: map<string, string>)
    ensures forall k :: k in r <==> k in cleaned || k in DateKeys || k in LocationKeys
    ensures forall k :: k in cleaned && k !in DateKeys && k != "description" && k !in LocationKeys ==> r[k] == cleaned[k]
    ensures DatesCleaned(cleaned, r) && DescriptionCleaned(cleaned, r) && LocationCleaned(cleaned, locations, r)
  {
    KeyGroupsDisjoint();
    var dates := CleanDates(cleaned);
    r := CleanTail(dates, locations);
    forall k | k in DateKeys
      ensures Get(r, k) == Get(dates, k)
    {
      assert k != "description" && k !in LocationKeys;
    }
    DatesCarried(cleaned, dates, cleaned, r);
    assert Get(dates, "description") == Get(cleaned, "description");
    assert Get(dates, "locationId") == Get(cleaned, "locationId");
  }

  /** The keys of a cleaned row, and the untouched keys holding their prepared values. */
  ghost predicate CleanedKeys(row: map<string, Option<string>>, cleaned: map<string, string>) {
    && (forall k :: k in cleaned <==> k in row || k in EnumKeys || k in IntegerKeys || k in DecimalKeys || k in DateKeys || k in LocationKeys)
    && (forall k ::
          (k in row && k !in EnumKeys && k !in IntegerKeys && k !in DecimalKeys && k !in DateKeys
           && k !in LocationKeys && k != "engineCode" && k != "description") ==>
          cleaned[k] == PrepareValue(row[k]))
  }

  /**
   * What `clean_row` returns for `row`: the keys of the row plus the normalised ones; the
   * untouched keys hold their prepared values; every normalised key holds its rule applied
   * to the prepared value (each step reads keys no earlier step wrote).
   */
  ghost predicate CleanedFrom(row: map<string, Option<string>>, env: Environment, cleaned: map<string, string>) {
    var prepared := Prepared(row);
    && CleanedKeys(row, cleaned)
    && EnumsCleaned(prepared, env.fold, env.tables, cleaned)
    && EngineCodeCleaned(prepared, cleaned)
    && IntegersCleaned(prepared, env.syntax, cleaned)
    && DecimalsCleaned(prepared, env.syntax, cleaned)
    && DatesCleaned(prepared, cleaned)
    && DescriptionCleaned(prepared, cleaned)
    && LocationCleaned(prepared, env.locations, cleaned)
  }

  /** What `CleanFront` wrote survives `CleanBack`, which touches none of those keys. */
  lemma FrontSurvives(src: map<string, string>, env: Environment, front: map<string, string>, r: map<string, string>)
    requires EnumsCleaned(src, env.fold, env.tables, front) && EngineCodeCleaned(src, front)
    requires IntegersCleaned(src, env.syntax, front) && DecimalsCleaned(src, env.syntax, front)
    requires forall k :: k in r <==> k in front || k in DateKeys || k in LocationKeys
    requires forall k :: k in front && k !in DateKeys && k != "description" && k !in LocationKeys ==> r[k] == front[k]
    ensures EnumsCleaned(src, env.fold, env.tables, r) && EngineCodeCleaned(src, r)
    ensures IntegersCleaned(src, env.syntax, r) && DecimalsCleaned(src, env.syntax, r)
  {
    KeyGroupsDisjoint();
    forall k | k in EnumKeys || k in IntegerKeys || k in DecimalKeys
      ensures Get(r, k) == Get(front, k)
    {
      assert k !in DateKeys && k !in LocationKeys && k != "description";
    }
    EnumsCarried(src, front, src, r, env.fold, env.tables);
    IntegersCarried(src, front, src, r, env.syntax);
    DecimalsCarried(src, front, src, r, env.syntax);
    assert Get(r, "engineCode") == Get(front, "engineCode");
  }

  /** `CleanBack` reads keys `CleanFront` left as they were. */
  lemma BackReadsSource(src: map<string, string>, locations: map<string, string>, front: map<string, string>, r: map<string, string>)
    requires forall k :: k in front <==> k in src || k in EnumKeys || k in IntegerKeys || k in DecimalKeys
    requires forall k :: k in src && k !in EnumKeys && k !in IntegerKeys && k !in DecimalKeys && k != "engineCode" ==>
      front[k] == src[k]
    requires DatesCleaned(front, r) && DescriptionCleaned(front, r) && LocationCleaned(front, locations, r)
    ensures DatesCleaned(src, r) && DescriptionCleaned(src, r) && LocationCleaned(src, locations, r)
  {
    KeyGroupsDisjoint();
    forall k | k in DateKeys
      ensures Get(front, k) == Get(src, k)
    {
      assert k !in EnumKeys && k !in IntegerKeys && k !in DecimalKeys && k != "engineCode";
    }
    DatesCarried(front, r, src, r);
    assert Get(front, "description") == Get(src, "description");
    assert Get(front, "locationId") == Get(src, "locationId");
  }

  /** The keys of the two halves together are the keys of a cleaned row. */
  lemma KeysComposed(row: map<string, Option<string>>, front: map<string, string>, r: map<string, string>)
    requires forall k :: k in front <==> k in row || k in EnumKeys || k in IntegerKeys || k in DecimalKeys
    requires forall k :: k in row && k !in EnumKeys && k !in IntegerKeys && k !in DecimalKeys && k != "engineCode" ==>
      front[k] == PrepareValue(row[k])
    requires forall k :: k in r <==> k in front || k in DateKeys || k in LocationKeys
    requires forall k :: k in front && k !in DateKeys && k != "description" && k !in LocationKeys ==> r[k] == front[k]
    ensures CleanedKeys(row, r)
  {
  }

  /** `clean_row`: every value prepared, then the partner quirks normalised key by key. */
  method CleanRow(row: map<string, Option<string>>, env: Environment) returns (cleaned: map<string, string>)
    ensures CleanedFrom(row, env, cleaned)
  {
    var prepared := Prepared(row);
    var front := CleanFront(prepared, env);
    cleaned := CleanBack(front, env.locations);
    FrontSurvives(prepared, env, front, cleaned);
    BackReadsSource(prepared, env.locations, front, cleaned);
    KeysComposed(row, front, cleaned);
  }

  /** The enumeration rules fix the enumeration keys. */
  lemma EnumsDetermined(src: map<string, string>, fold: Fold, tables: EnumTables, a: map<string, string>, b: map<string, string>)
    requires EnumsCleaned(src, fold, tables, a) && EnumsCleaned(src, fold, tables, b)
    ensures forall k :: k in EnumKeys ==> Get(a, k) == Get(b, k)
  {
  }

  /** The number rules fix the integer and amount keys. */
  lemma NumbersDetermined(src: map<string, string>, syntax: DecimalSyntax, a: map<string, string>, b: map<string, string>)
    requires IntegersCleaned(src, syntax, a) && IntegersCleaned(src, syntax, b)
    requires DecimalsCleaned(src, syntax, a) && DecimalsCleaned(src, syntax, b)
    ensures forall k :: k in IntegerKeys || k in DecimalKeys ==> Get(a, k) == Get(b, k)
  {
  }

  /** The rules leave no room: `clean_row` has one result for each row. */
  lemma CleanedUnique(row: map<string, Option<string>>, env: Environment, a: map<string, string>, b: map<string, string>)
    requires CleanedFrom(row, env, a) && CleanedFrom(row, env, b)
    ensures a == b
  {
    var prepared := Prepared(row);
    EnumsDetermined(prepared, env.fold, env.tables, a, b);
    NumbersDetermined(prepared, env.syntax, a, b);
    forall k | k in a
      ensures k in b && a[k] == b[k]
    {
      assert Get(a, k) == Get(b, k) by {
        if k in DateKeys || k in LocationKeys || k == "description" || k == "engineCode" {
        }
      }
    }
  }

  /** A cleaned row never has an empty engine code, and always has a doors value. */
  lemma CleanedDefaults(row: map<string, Option<string>>, env: Environment, cleaned: map<string, string>)
    requires CleanedFrom(row, env, cleaned)
    ensures "engineCode" in cleaned <==> "engineCode" in row
    ensures "engineCode" in cleaned ==> cleaned["engineCode"] != ""
    ensures "doors" in cleaned && cleaned["doors"] != ""
  {
    KeyGroupsDisjoint();
  }
}
