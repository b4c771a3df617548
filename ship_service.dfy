/**
 * The ship registry service: field validation, the derived rating, the
 * parsing of record identifiers, and the create / get / update / delete /
 * count operations over an in-memory store of records keyed by identifier.
 */
module ShipService {
  import opened Wrappers
  import opened Ships
  import opened ShipFilters

  // ---------------------------------------------------------------------
  // Errors
  // ---------------------------------------------------------------------

  /** Why a request was refused as malformed. */
  datatype BadRequestReason =
    | MissingRequiredField
    | IncorrectData(param: string)   // names the offending parameter

  /** The two error kinds of the service. */
  datatype Error = BadRequest(reason: BadRequestReason) | NotFound

  /** The result of a check that either passes or fails with an error. */
  datatype Outcome = Pass | Fail(error: Error)

  // ---------------------------------------------------------------------
  // Field validation
  // ---------------------------------------------------------------------

  const MaxNameLength: int := 49
  const MinSpeed: real := 0.01
  const MaxSpeed: real := 0.99
  const MinCrewSize: int := 1
  const MaxCrewSize: int := 9999
  const MinProdYear: int := 2800
  const MaxProdYear: int := 3019

  /** The fields that carry a bound, in the order in which they are checked. */
  datatype Field = NameField | PlanetField | SpeedField | CrewSizeField | ProdDateField

  /** Position of a field in the checking order. */
  function Rank(f: Field): nat {
    match f
    case NameField => 0
    case PlanetField => 1
    case SpeedField => 2
    case CrewSizeField => 3
    case ProdDateField => 4
  }

  /** The parameter name reported when a field is out of range. */
  function Label(f: Field): string {
    match f
    case NameField => "ship's name"
    case PlanetField => "planet's name"
    case SpeedField => "ship's speed"
    case CrewSizeField => "ship's crew number"
    case ProdDateField => "ship's production date"
  }

  function ParamError(f: Field): Error {
    BadRequest(IncorrectData(Label(f)))
  }

  /** Field `f` of the payload is absent or within its accepted range. */
  predicate FieldOk(d: ShipData, f: Field) {
    match f
    case NameField => d.name.None? || 1 <= |d.name.value| <= MaxNameLength
    case PlanetField => d.planet.None? || 1 <= |d.planet.value| <= MaxNameLength
    case SpeedField => d.speed.None? || (d.speed.value.Num? && MinSpeed <= d.speed.value.r <= MaxSpeed)
    case CrewSizeField => d.crewSize.None? || MinCrewSize <= d.crewSize.value <= MaxCrewSize
    case ProdDateField => d.prodDate.None? || MinProdYear <= YearOf(d.prodDate.value) <= MaxProdYear
  }

  /** `f` is out of range and every field checked before it is fine. */
  predicate IsFirstFailure(d: ShipData, f: Field) {
    !FieldOk(d, f) && forall g :: Rank(g) < Rank(f) ==> FieldOk(d, g)
  }

  /** At most one field is the first to fail. */
  lemma FirstFailureUnique(d: ShipData)
    ensures forall f, g :: IsFirstFailure(d, f) && IsFirstFailure(d, g) ==> f == g
  {
  }

  /**
   * Checks every present field against its bound and reports the first
   * field, in checking order, that is out of range. Absent fields are
   * skipped.
   */
  function CheckShipParams(d: ShipData): (r: Outcome)
    ensures r.Pass? <==> forall f :: FieldOk(d, f)
    ensures forall f :: IsFirstFailure(d, f) ==> r == Fail(ParamError(f))
  {
    FirstFailureUnique(d);
    if d.name.Some? && (|d.name.value| == 0 || |d.name.value| >= 50) then
      assert IsFirstFailure(d, NameField);
      Fail(ParamError(NameField))
    else if d.planet.Some? && (|d.planet.value| == 0 || |d.planet.value| >= 50) then
      assert IsFirstFailure(d, PlanetField);
      Fail(ParamError(PlanetField))
    else if d.speed.Some? && (d.speed.value.NaN? || d.speed.value.r < 0.01 || d.speed.value.r > 0.99) then
      assert IsFirstFailure(d, SpeedField);
      Fail(ParamError(SpeedField))
    else if d.crewSize.Some? && (d.crewSize.value < 1 || d.crewSize.value > 9999) then
      assert IsFirstFailure(d, CrewSizeField);
      Fail(ParamError(CrewSizeField))
    else if d.prodDate.Some? && (YearOf(d.prodDate.value) < 2800 || YearOf(d.prodDate.value) > 3019) then
      assert IsFirstFailure(d, ProdDateField);
      Fail(ParamError(ProdDateField))
    else
      assert FieldOk(d, NameField) && FieldOk(d, PlanetField) && FieldOk(d, SpeedField);
      assert FieldOk(d, CrewSizeField) && FieldOk(d, ProdDateField);
      Pass
  }

  /**
   * A production date passes the check exactly when it lies in
   * [2800-01-01T00:00:00Z, 3020-01-01T00:00:00Z).
   */
  lemma ProdDateAccepted(d: ShipData)
    requires d.prodDate.Some?
    ensures FieldOk(d, ProdDateField) <==> StartOf2800 <= d.prodDate.value < StartOf3020
  {
    YearWithin2800To3019(d.prodDate.value);
  }

  /** The six fields a new record must carry; the used flag may be omitted. */
  predicate HasRequired(d: ShipData) {
    d.name.Some? && d.planet.Some? && d.shipType.Some? &&
    d.prodDate.Some? && d.speed.Some? && d.crewSize.Some?
  }

  // ---------------------------------------------------------------------
  // Rating
  // ---------------------------------------------------------------------

  /** `x` is a whole number of hundredths. */
  predicate IsCents(x: real) {
    (x * 100.0).Floor as real == x * 100.0
  }

  /**
   * Rounding to two decimals with ties away from zero: the result is the
   * multiple of 0.01 nearest to `x`, and of two equally near ones the one
   * farther from zero.
   */
  function RoundHalfUp2(x: real): (r: real)
    ensures IsCents(r)
    ensures x >= 0.0 ==> x - 0.005 < r <= x + 0.005
    ensures x < 0.0 ==> x - 0.005 <= r < x + 0.005
  {
    if x >= 0.0 then
      var n := (x * 100.0 + 0.5).Floor;
      assert (n as real / 100.0) * 100.0 == n as real;
      n as real / 100.0
    else
      var n := (-x * 100.0 + 0.5).Floor;
      assert (-(n as real / 100.0)) * 100.0 == (-n) as real;
      -(n as real / 100.0)
  }

  /** Only one multiple of 0.01 lies in a half-open interval of width 0.01. */
  lemma RoundHalfUpUnique(x: real, a: real, b: real)
    requires IsCents(a) && IsCents(b)
    requires x - 0.005 < a <= x + 0.005 && x - 0.005 < b <= x + 0.005
    ensures a == b
  {
    var na, nb := (a * 100.0).Floor, (b * 100.0).Floor;
    assert na as real == a * 100.0 && nb as real == b * 100.0;
    assert -1 < na - nb < 1;
  }

  /** The same for the interval used below zero, closed at its lower end. */
  lemma RoundHalfUpUniqueBelowZero(x: real, a: real, b: real)
    requires IsCents(a) && IsCents(b)
    requires x - 0.005 <= a < x + 0.005 && x - 0.005 <= b < x + 0.005
    ensures a == b
  {
    var na, nb := (a * 100.0).Floor, (b * 100.0).Floor;
    assert na as real == a * 100.0 && nb as real == b * 100.0;
    assert -1 < na - nb < 1;
  }

  /** Rounding half-up never reverses the order of two non-negative values. */
  lemma RoundHalfUpMonotonic(x: real, y: real)
    requires 0.0 <= x <= y
    ensures RoundHalfUp2(x) <= RoundHalfUp2(y)
  {
    var nx, ny := (x * 100.0 + 0.5).Floor, (y * 100.0 + 0.5).Floor;
    assert nx <= ny;
  }

  /** The rating factor: a used ship counts half. */
  function UsageFactor(isUsed: bool): real {
    if isUsed then 0.5 else 1.0
  }

  /** The unrounded rating `80 * speed * k / (3019 - year + 1)`. */
  function RawRating(speed: real, isUsed: bool, year: int): real
    requires year <= MaxProdYear
  {
    80.0 * speed * UsageFactor(isUsed) / (3019 - year + 1) as real
  }

  /** The rating: the raw rating rounded half-up to two decimals. */
  function CalculateRating(speed: real, isUsed: bool, year: int): (r: real)
    requires year <= MaxProdYear
    ensures IsCents(r)
    ensures RawRating(speed, isUsed, year) >= 0.0 ==>
      RawRating(speed, isUsed, year) - 0.005 < r <= RawRating(speed, isUsed, year) + 0.005
    ensures RawRating(speed, isUsed, year) < 0.0 ==>
      RawRating(speed, isUsed, year) - 0.005 <= r < RawRating(speed, isUsed, year) + 0.005
  {
    RoundHalfUp2(RawRating(speed, isUsed, year))
  }

  /** Dividing a non-negative number by at least one does not make it larger. */
  lemma DivideByAtLeastOne(a: real, b: real)
    requires 0.0 <= a && 1.0 <= b
    ensures 0.0 <= a / b <= a
  {
    var q := a / b;
    assert q * b == a;
    assert q * b - q == q * (b - 1.0);
  }

  /** Dividing by a positive number keeps the order. */
  lemma DivideKeepsOrder(a: real, b: real, c: real)
    requires a <= b && 0.0 < c
    ensures a / c <= b / c
  {
    assert (b / c - a / c) * c == b - a;
  }

  /** For accepted speeds and years the rating lies in [0, 79.2]. */
  lemma RatingBounds(speed: real, isUsed: bool, year: int)
    requires MinSpeed <= speed <= MaxSpeed && MinProdYear <= year <= MaxProdYear
    ensures 0.0 <= CalculateRating(speed, isUsed, year) <= 79.2
  {
    var d := (3019 - year + 1) as real;
    var top := 80.0 * speed * UsageFactor(isUsed);
    assert 1.0 <= d;
    assert 0.0 < top <= 79.2;
    DivideByAtLeastOne(top, d);
    var r := CalculateRating(speed, isUsed, year);
    var n := (r * 100.0).Floor;
    assert n as real == r * 100.0;
    assert -1 < n <= 7920;
  }

  /** Being used never raises the rating. */
  lemma UsedRatesNoHigher(speed: real, year: int)
    requires MinSpeed <= speed <= MaxSpeed && MinProdYear <= year <= MaxProdYear
    ensures CalculateRating(speed, true, year) <= CalculateRating(speed, false, year)
  {
    var d := (3019 - year + 1) as real;
    DivideKeepsOrder(80.0 * speed * 0.5, 80.0 * speed * 1.0, d);
    RoundHalfUpMonotonic(RawRating(speed, true, year), RawRating(speed, false, year));
  }

  /** Two worked examples: the newest unused ship and the oldest used one. */
  lemma RatingExamples()
    ensures CalculateRating(0.5, false, 3019) == 40.0
    ensures CalculateRating(0.99, true, 2800) == 0.18
  {
    assert RawRating(0.5, false, 3019) == 40.0;
    assert RawRating(0.99, true, 2800) == 0.18;
  }

  // ---------------------------------------------------------------------
  // Identifiers
  // ---------------------------------------------------------------------

  const MaxLong: int := 0x7fff_ffff_ffff_ffff
  const MinLong: int := -0x8000_0000_0000_0000

  predicate IsDigit(c: char) {
    '0' <= c <= '9'
  }

  predicate AllDigits(s: string) {
    forall i :: 0 <= i < |s| ==> IsDigit(s[i])
  }

  /** The number written in decimal by the digit string `s`. */
  function DigitsValue(s: string): nat
    requires AllDigits(s)
  {
    if |s| == 0 then 0
    else DigitsValue(s[..|s| - 1]) * 10 + (s[|s| - 1] as int - '0' as int)
  }

  /**
   * Java's `Long.parseLong` for ASCII digits: an optional sign, at least
   * one digit, and a value within the 64-bit signed range; otherwise no
   * number.
   */
  function ParseLong(s: string): (r: Option<int>)
    ensures r.Some? ==> MinLong <= r.value <= MaxLong
    ensures r.Some? ==> |s| > 0 && (s[0] != '-' ==> r.value >= 0)
    ensures r.Some? ==>
      var t := if s[0] == '-' || s[0] == '+' then s[1..] else s;
      && |t| > 0 && AllDigits(t)
      && r.value == if s[0] == '-' then -(DigitsValue(t) as int) else DigitsValue(t)
    ensures |s| > 0 && AllDigits(s) && DigitsValue(s) <= MaxLong ==> r == Some(DigitsValue(s))
    ensures |s| > 1 && s[0] == '+' && AllDigits(s[1..]) && DigitsValue(s[1..]) <= MaxLong ==>
      r == Some(DigitsValue(s[1..]))
    ensures |s| > 1 && s[0] == '-' && AllDigits(s[1..]) && DigitsValue(s[1..]) <= -MinLong ==>
      r == Some(-(DigitsValue(s[1..]) as int))
  {
    if |s| == 0 then None
    else
      var digits := if s[0] == '-' || s[0] == '+' then s[1..] else s;
      if |digits| == 0 || !AllDigits(digits) then None
      else
        var v: int := if s[0] == '-' then -(DigitsValue(digits) as int) else DigitsValue(digits);
        if MinLong <= v <= MaxLong then Some(v) else None
  }

  function DigitChar(d: nat): char
    requires d < 10
  {
    ('0' as int + d) as char
  }

  /** The shortest decimal numeral of `n`. */
  function Decimal(n: nat): string {
    if n < 10 then [DigitChar(n)] else Decimal(n / 10) + [DigitChar(n % 10)]
  }

  /** A decimal numeral is a non-empty digit string that reads back as `n`. */
  lemma {:induction false} DecimalReadsBack(n: nat)
    ensures |Decimal(n)| > 0 && AllDigits(Decimal(n)) && DigitsValue(Decimal(n)) == n
    ensures (Decimal(n)[0] == '0') <==> n == 0
  {
    if n >= 10 {
      DecimalReadsBack(n / 10);
      var s := Decimal(n);
      assert s[..|s| - 1] == Decimal(n / 10);
      assert s[0] == Decimal(n / 10)[0];
    }
  }

  /** Parsing a decimal numeral within the 64-bit range gives its value back. */
  lemma ParseLongDecimal(n: nat)
    requires n <= MaxLong
    ensures ParseLong(Decimal(n)) == Some(n)
  {
    DecimalReadsBack(n);
  }

  const IncorrectId: Error := BadRequest(IncorrectData("Incorrect ID"))
  const IdNotANumber: Error := BadRequest(IncorrectData("ID isn't a number"))

  /**
   * The identifier check as the source writes it: an absent id, an id
   * starting with "-" and the literal "0" are refused, then the text is
   * parsed. Numerals of zero other than "0" (such as "00" or "+0") get
   * through as the identifier 0.
   */
  function CheckAndParseIdAsWritten(id: Option<string>): (r: Result<int, Error>)
    ensures id.None? ==> r == Failure(IncorrectId)
    ensures id.Some? && |id.value| > 0 && id.value[0] == '-' ==> r == Failure(IncorrectId)
    ensures id == Some("0") ==> r == Failure(IncorrectId)
    ensures r.Success? ==> id.Some? && 0 <= r.value <= MaxLong && ParseLong(id.value) == Some(r.value)
    ensures r.Failure? ==> r.error == IncorrectId || (r.error == IdNotANumber && ParseLong(id.value).None?)
    ensures id.Some? && !(|id.value| > 0 && id.value[0] == '-') && id.value != "0" ==>
      r == if ParseLong(id.value).Some? then Success(ParseLong(id.value).value) else Failure(IdNotANumber)
  {
    if id.None? || (|id.value| > 0 && id.value[0] == '-') || id.value == "0" then
      Failure(IncorrectId)
    else
      match ParseLong(id.value)
      case None => Failure(IdNotANumber)
      case Some(v) => Success(v)
  }

  /** The identifier check as written lets "00" through as the identifier 0. */
  lemma AsWrittenAcceptsZeroId()
    ensures CheckAndParseIdAsWritten(Some("00")) == Success(0)
  {
    assert AllDigits("00");
    assert DigitsValue("0") == 0 by {
      assert "0"[..0] == "";
    }
    assert DigitsValue("00") == 0 by {
      assert "00"[..1] == "0";
    }
  }

  /**
   * The identifier check with every non-positive identifier refused: as
   * written, with a parsed 0 refused as an incorrect identifier too.
   */
  function CheckAndParseId(id: Option<string>): (r: Result<int, Error>)
    ensures r.Success? ==> id.Some? && 1 <= r.value <= MaxLong && ParseLong(id.value) == Some(r.value)
    ensures r.Failure? ==> r.error.BadRequest?
    ensures CheckAndParseIdAsWritten(id).Failure? ==> r == CheckAndParseIdAsWritten(id)
    ensures CheckAndParseIdAsWritten(id) == Success(0) ==> r == Failure(IncorrectId)
    ensures CheckAndParseIdAsWritten(id).Success? && CheckAndParseIdAsWritten(id).value != 0 ==>
      r == CheckAndParseIdAsWritten(id)
  {
    var parsed := CheckAndParseIdAsWritten(id);
    if parsed.Success? && parsed.value == 0 then Failure(IncorrectId) else parsed
  }

  /** Every positive 64-bit identifier, written in decimal, is accepted as itself. */
  lemma IdRoundTrip(n: int)
    requires 1 <= n <= MaxLong
    ensures CheckAndParseId(Some(Decimal(n))) == Success(n)
  {
    DecimalReadsBack(n);
    ParseLongDecimal(n);
    assert Decimal(n) != "0";
  }

  /** A leading plus sign and leading zeros are accepted, as `Long.parseLong` reads them. */
  lemma IdSignAndPadding()
    ensures CheckAndParseId(Some("+5")) == Success(5)
    ensures CheckAndParseId(Some("007")) == Success(7)
  {
    assert "+5"[1..] == "5" && "5"[..0] == "";
    assert "007"[..2] == "00" && "00"[..1] == "0" && "0"[..0] == "";
  }

  /** Malformed and non-positive identifiers are bad requests. */
  lemma IdRejections()
    ensures CheckAndParseId(None) == Failure(IncorrectId)
    ensures CheckAndParseId(Some("0")) == Failure(IncorrectId)
    ensures CheckAndParseId(Some("-5")) == Failure(IncorrectId)
    ensures CheckAndParseId(Some("00")) == Failure(IncorrectId)
    ensures CheckAndParseId(Some("abc")) == Failure(IdNotANumber)
    ensures CheckAndParseId(Some("")) == Failure(IdNotANumber)
  {
    AsWrittenAcceptsZeroId();
    assert !IsDigit("abc"[0]);
  }

  // ---------------------------------------------------------------------
  // The registry
  // ---------------------------------------------------------------------

  /** A stored record: every field in range and the rating derived from the others. */
  predicate ValidShip(s: Ship) {
    1 <= |s.name| <= MaxNameLength && 1 <= |s.planet| <= MaxNameLength &&
    MinSpeed <= s.speed <= MaxSpeed &&
    MinCrewSize <= s.crewSize <= MaxCrewSize &&
    MinProdYear <= YearOf(s.prodDate) <= MaxProdYear &&
    s.rating == CalculateRating(s.speed, s.isUsed, YearOf(s.prodDate))
  }

  /** The number of distinct records in a store keyed by their own identifiers. */
  lemma {:induction false} StoredRecordCount(m: map<int, Ship>)
    requires forall k :: k in m ==> m[k].id == k
    ensures |set k | k in m :: m[k]| == |m|
  {
    if m != map[] {
      assert (forall k :: k !in m) ==> m == map[];
      var k :| k in m;
      var m' := m - {k};
      assert m'.Keys == m.Keys - {k};
      StoredRecordCount(m');
      var all, rest := set j | j in m :: m[j], set j | j in m' :: m'[j];
      assert all == rest + {m[k]} by {
        forall x ensures x in all <==> x in rest + {m[k]} {
          if x in all {
            var j :| j in m && m[j] == x;
            if j != k { assert j in m' && m'[j] == x; }
          }
        }
      }
      assert m[k] !in rest;
    }
  }

  /**
   * The setter chain of an update: every field present in `d` overwrites
   * the stored one, every absent field is kept. The identifier and the
   * rating are left as they were.
   */
  method MergeUpdates(was: Ship, d: ShipData) returns (s: Ship)
    requires d.speed.Some? ==> d.speed.value.Num?
    ensures s.id == was.id && s.rating == was.rating
    ensures s.name == d.name.GetOr(was.name)
    ensures s.planet == d.planet.GetOr(was.planet)
    ensures s.shipType == d.shipType.GetOr(was.shipType)
    ensures s.prodDate == d.prodDate.GetOr(was.prodDate)
    ensures s.isUsed == d.isUsed.GetOr(was.isUsed)
    ensures if d.speed.Some? then d.speed == Some(Num(s.speed)) else s.speed == was.speed
    ensures s.crewSize == d.crewSize.GetOr(was.crewSize)
  {
    s := was;
    if d.name.Some? {
      s := s.(name := d.name.value);
    }
    if d.planet.Some? {
      s := s.(planet := d.planet.value);
    }
    if d.shipType.Some? {
      s := s.(shipType := d.shipType.value);
    }
    if d.prodDate.Some? {
      s := s.(prodDate := d.prodDate.value);
    }
    if d.isUsed.Some? {
      s := s.(isUsed := d.isUsed.value);
    }
    if d.speed.Some? {
      s := s.(speed := d.speed.value.r);
    }
    if d.crewSize.Some? {
      s := s.(crewSize := d.crewSize.value);
    }
  }

  class ShipRegistry {
    /** The stored records, keyed by identifier. */
    var ships: map<int, Ship>
    /** The identifier the store assigns to the next new record. */
    var nextId: int

    ghost predicate Valid()
      reads this
    {
      1 <= nextId &&
      forall id :: id in ships ==> 1 <= id < nextId && ships[id].id == id && ValidShip(ships[id])
    }

    constructor ()
      ensures Valid() && ships == map[] && nextId == 1
    {
      ships := map[];
      nextId := 1;
    }

    /** The stored records that pass filter `f`. */
    ghost function Listed(f: Filter): set<Ship>
      reads this
    {
      set id | id in ships && Matches(f, ships[id]) :: ships[id]
    }

    /** The number of stored records: the size of the unfiltered list. */
    function Count(): (n: nat)
      requires Valid()
      reads this
      ensures n == |Listed(NoConstraint)|
    {
      StoredRecordCount(ships);
      assert Listed(NoConstraint) == set k | k in ships :: ships[k];
      |ships|
    }

    /**
     * Looks a record up by its textual identifier: bad requests for a
     * malformed identifier, not found for a well-formed one with no record.
     */
    function Get(id: Option<string>): (r: Result<Ship, Error>)
      reads this
      ensures CheckAndParseId(id).Failure? ==> r == Failure(CheckAndParseId(id).error)
      ensures r == Failure(NotFound) <==> CheckAndParseId(id).Success? && CheckAndParseId(id).value !in ships
      ensures r.Success? <==> CheckAndParseId(id).Success? && CheckAndParseId(id).value in ships
      ensures r.Success? ==> r.value == ships[CheckAndParseId(id).value]
    {
      match CheckAndParseId(id)
      case Failure(e) => Failure(e)
      case Success(key) => if key in ships then Success(ships[key]) else Failure(NotFound)
    }

    /**
     * A numeral of zero other than "0" (such as "00") is refused as an
     * incorrect identifier; no record has the identifier 0, so the lookup
     * as written would report not found for it instead.
     */
    lemma GetOnZeroNumeral(id: Option<string>)
      requires Valid() && CheckAndParseIdAsWritten(id) == Success(0)
      ensures Get(id) == Failure(IncorrectId) && 0 !in ships
    {
    }

    /** Every stored record is found under the decimal numeral of its identifier. */
    lemma GetFindsStored(k: int)
      requires Valid() && k in ships && k <= MaxLong
      ensures Get(Some(Decimal(k))) == Success(ships[k]) && ships[k].id == k
    {
      IdRoundTrip(k);
    }

    /** Every stored rating lies in [0, 79.2]. */
    lemma StoredRatingBounds(k: int)
      requires Valid() && k in ships
      ensures 0.0 <= ships[k].rating <= 79.2
    {
      var s := ships[k];
      RatingBounds(s.speed, s.isUsed, YearOf(s.prodDate));
    }

    /**
     * Creates a record: the six required fields must be present, then
     * every field must be in range; the used flag defaults to false and the
     * rating is derived. On failure nothing is stored.
     */
    method Create(d: ShipData) returns (r: Result<Ship, Error>)
      requires Valid()
      modifies this
      ensures Valid()
      ensures !HasRequired(d) ==> r == Failure(BadRequest(MissingRequiredField))
      ensures HasRequired(d) && CheckShipParams(d).Fail? ==> r == Failure(CheckShipParams(d).error)
      ensures r.Success? <==> HasRequired(d) && CheckShipParams(d).Pass?
      ensures r.Failure? ==> ships == old(ships) && nextId == old(nextId)
      ensures r.Success? ==>
        var s := r.value;
        && s.id == old(nextId) && s.id !in old(ships)
        && ships == old(ships)[s.id := s] && |ships| == |old(ships)| + 1
        && nextId == old(nextId) + 1
        && d.name == Some(s.name) && d.planet == Some(s.planet)
        && d.shipType == Some(s.shipType) && d.prodDate == Some(s.prodDate)
        && d.speed == Some(Num(s.speed)) && d.crewSize == Some(s.crewSize)
        && s.isUsed == d.isUsed.GetOr(false)
        && s.rating == CalculateRating(s.speed, s.isUsed, YearOf(s.prodDate))
    {
      if d.name.None? || d.planet.None? || d.shipType.None?
         || d.prodDate.None? || d.speed.None? || d.crewSize.None? {
        return Failure(BadRequest(MissingRequiredField));
      }
      var check := CheckShipParams(d);
      if check.Fail? {
        return Failure(check.error);
      }
      assert FieldOk(d, NameField) && FieldOk(d, PlanetField) && FieldOk(d, SpeedField);
      assert FieldOk(d, CrewSizeField) && FieldOk(d, ProdDateField);
      var isUsed := if d.isUsed.None? then false else d.isUsed.value;
      var speed := d.speed.value.r;
      var year := YearOf(d.prodDate.value);
      var rating := CalculateRating(speed, isUsed, year);
      var s := Ship(nextId, d.name.value, d.planet.value, d.shipType.value,
                    d.prodDate.value, isUsed, speed, d.crewSize.value, rating);
      ships := ships[nextId := s];
      nextId := nextId + 1;
      r := Success(s);
    }

    /**
     * Updates a record: the identifier is resolved first, then the present
     * fields of the payload are checked; each present field overwrites the
     * stored one, each absent field is kept, and the rating is recomputed
     * from the merged record. On failure nothing changes.
     */
    method Update(id: Option<string>, d: ShipData) returns (r: Result<Ship, Error>)
      requires Valid()
      modifies this
      ensures Valid() && nextId == old(nextId)
      ensures old(Get(id)).Failure? ==> r == Failure(old(Get(id)).error)
      ensures old(Get(id)).Success? && CheckShipParams(d).Fail? ==> r == Failure(CheckShipParams(d).error)
      ensures r.Success? <==> old(Get(id)).Success? && CheckShipParams(d).Pass?
      ensures r.Failure? ==> ships == old(ships)
      ensures r.Success? ==>
        var was := old(Get(id)).value;
        var s := r.value;
        && s.id == was.id && ships == old(ships)[s.id := s] && ships.Keys == old(ships).Keys
        && s.name == d.name.GetOr(was.name)
        && s.planet == d.planet.GetOr(was.planet)
        && s.shipType == d.shipType.GetOr(was.shipType)
        && s.prodDate == d.prodDate.GetOr(was.prodDate)
        && s.isUsed == d.isUsed.GetOr(was.isUsed)
        && (if d.speed.Some? then d.speed == Some(Num(s.speed)) else s.speed == was.speed)
        && s.crewSize == d.crewSize.GetOr(was.crewSize)
        && s.rating == CalculateRating(s.speed, s.isUsed, YearOf(s.prodDate))
    {
      var found := Get(id);
      if found.Failure? {
        return Failure(found.error);
      }
      var check := CheckShipParams(d);
      if check.Fail? {
        return Failure(check.error);
      }
      assert FieldOk(d, NameField) && FieldOk(d, PlanetField) && FieldOk(d, SpeedField);
      assert FieldOk(d, CrewSizeField) && FieldOk(d, ProdDateField);
      var s := MergeUpdates(found.value, d);
      s := s.(rating := CalculateRating(s.speed, s.isUsed, YearOf(s.prodDate)));
      ships := ships[s.id := s];
      r := Success(s);
    }

    /**
     * Deletes the record the identifier names; afterwards looking it up
     * yields not found. On failure nothing changes.
     */
    method Delete(id: Option<string>) returns (r: Result<(), Error>)
      requires Valid()
      modifies this
      ensures Valid() && nextId == old(nextId)
      ensures old(Get(id)).Failure? ==> r == Failure(old(Get(id)).error) && ships == old(ships)
      ensures old(Get(id)).Success? ==> r.Success? && ships == old(ships) - {old(Get(id)).value.id}
      ensures r.Success? ==> Get(id) == Failure(NotFound) && |ships| == |old(ships)| - 1
    {
      var found := Get(id);
      if found.Failure? {
        return Failure(found.error);
      }
      ships := ships - {found.value.id};
      r := Success(());
    }
  }
}
