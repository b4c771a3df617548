/**
 * The filter fragments of the ship list query. Each builder takes an
 * optional criterion and yields either `NoConstraint` (the `null` predicate
 * the query layer skips) or a test on one attribute of a stored ship; the
 * fragments are combined with a logical AND in which `NoConstraint` is the
 * identity.
 */
module ShipFilters {
  import opened Wrappers
  import opened Ships

  /** The numeric attributes that can be range-filtered. */
  datatype NumericAttr = SpeedAttr | CrewSizeAttr | RatingAttr

  /** The three shapes a range criterion takes. */
  datatype Range = AtMost(max: real) | AtLeast(min: real) | Between(min: real, max: real)

  datatype Filter =
    | NoConstraint
    | NameLike(name: string)                // name contains the text
    | PlanetLike(planet: string)            // planet contains the text
    | TypeIs(shipType: ShipType)
    | UsedIs(isUsed: bool)
    | ProducedBefore(before: int)           // prodDate < before (epoch millis)
    | ProducedFrom(after: int)              // prodDate >= after (epoch millis)
    | InRange(attr: NumericAttr, range: Range)
    | And(left: Filter, right: Filter)

  /** `sub` occurs in `text` starting at position `i`. */
  predicate OccursAt(text: string, sub: string, i: int) {
    0 <= i <= |text| - |sub| && text[i..i + |sub|] == sub
  }

  /** Substring containment, the meaning of `LIKE '%sub%'` for a plain text. */
  function Contains(text: string, sub: string): (r: bool)
    ensures r <==> exists i :: OccursAt(text, sub, i)
    decreases |text|
  {
    if sub <= text then
      assert OccursAt(text, sub, 0);
      true
    else if |text| == 0 then
      assert forall i :: !OccursAt(text, sub, i);
      false
    else
      var rest := Contains(text[1..], sub);
      assert forall i :: 1 <= i ==> (OccursAt(text, sub, i) <==> OccursAt(text[1..], sub, i - 1));
      assert !OccursAt(text, sub, 0);
      assert rest ==> exists i :: OccursAt(text, sub, i) by {
        if rest {
          var j :| OccursAt(text[1..], sub, j);
          assert OccursAt(text, sub, j + 1);
        }
      }
      rest
  }

  /** The value of a numeric attribute of a ship; the crew size is read as a number. */
  function AttrValue(attr: NumericAttr, s: Ship): real {
    match attr
    case SpeedAttr => s.speed
    case CrewSizeAttr => s.crewSize as real
    case RatingAttr => s.rating
  }

  /** Range bounds are inclusive at both ends. */
  predicate InBounds(v: real, range: Range) {
    match range
    case AtMost(max) => v <= max
    case AtLeast(min) => min <= v
    case Between(min, max) => min <= v <= max
  }

  /** Whether ship `s` passes filter `f`. */
  predicate Matches(f: Filter, s: Ship) {
    match f
    case NoConstraint => true
    case NameLike(name) => Contains(s.name, name)
    case PlanetLike(planet) => Contains(s.planet, planet)
    case TypeIs(t) => s.shipType == t
    case UsedIs(b) => s.isUsed == b
    case ProducedBefore(t) => s.prodDate < t
    case ProducedFrom(t) => s.prodDate >= t
    case InRange(attr, range) => InBounds(AttrValue(attr, s), range)
    case And(l, r) => Matches(l, s) && Matches(r, s)
  }

  function FilterByName(name: Option<string>): (f: Filter)
    ensures f.NoConstraint? <==> name.None?
    ensures forall s :: Matches(f, s) <==> (name.Some? ==> exists i :: OccursAt(s.name, name.value, i))
  {
    if name.None? then NoConstraint else NameLike(name.value)
  }

  function FilterByPlanet(planet: Option<string>): (f: Filter)
    ensures f.NoConstraint? <==> planet.None?
    ensures forall s :: Matches(f, s) <==> (planet.Some? ==> exists i :: OccursAt(s.planet, planet.value, i))
  {
    if planet.None? then NoConstraint else PlanetLike(planet.value)
  }

  function FilterByShipType(shipType: Option<ShipType>): (f: Filter)
    ensures f.NoConstraint? <==> shipType.None?
    ensures forall s :: Matches(f, s) <==> (shipType.Some? ==> s.shipType == shipType.value)
  {
    if shipType.None? then NoConstraint else TypeIs(shipType.value)
  }

  /** Before is strict: a ship produced exactly at `before` is excluded. */
  function FilterBeforeDate(before: Option<int>): (f: Filter)
    ensures f.NoConstraint? <==> before.None?
    ensures forall s :: Matches(f, s) <==> (before.Some? ==> s.prodDate < before.value)
  {
    if before.None? then NoConstraint else ProducedBefore(before.value)
  }

  /** After is inclusive: a ship produced exactly at `after` is included. */
  function FilterAfterDate(after: Option<int>): (f: Filter)
    ensures f.NoConstraint? <==> after.None?
    ensures forall s :: Matches(f, s) <==> (after.Some? ==> after.value <= s.prodDate)
  {
    if after.None? then NoConstraint else ProducedFrom(after.value)
  }

  function FilterByUsage(isUsed: Option<bool>): (f: Filter)
    ensures f.NoConstraint? <==> isUsed.None?
    ensures forall s :: Matches(f, s) <==> (isUsed.Some? ==> s.isUsed == isUsed.value)
  {
    if isUsed.None? then NoConstraint
    else if isUsed.value then UsedIs(true)
    else UsedIs(false)
  }

  /**
   * The common shape of the three range filters: no bound gives no
   * constraint, one bound a one-sided test, two bounds an inclusive range.
   */
  function RangeFilter(attr: NumericAttr, min: Option<real>, max: Option<real>): (f: Filter)
    ensures f.NoConstraint? <==> min.None? && max.None?
    ensures forall s :: Matches(f, s) <==>
      (min.Some? ==> min.value <= AttrValue(attr, s)) && (max.Some? ==> AttrValue(attr, s) <= max.value)
  {
    if min.None? && max.None? then NoConstraint
    else if min.None? then InRange(attr, AtMost(max.value))
    else if max.None? then InRange(attr, AtLeast(min.value))
    else InRange(attr, Between(min.value, max.value))
  }

  function FilterBySpeed(min: Option<real>, max: Option<real>): (f: Filter)
    ensures f.NoConstraint? <==> min.None? && max.None?
    ensures forall s :: Matches(f, s) <==>
      (min.Some? ==> min.value <= s.speed) && (max.Some? ==> s.speed <= max.value)
  {
    RangeFilter(SpeedAttr, min, max)
  }

  /** The crew-size criteria are integers, compared exactly. */
  function FilterByCrewSize(min: Option<int>, max: Option<int>): (f: Filter)
    ensures f.NoConstraint? <==> min.None? && max.None?
    ensures forall s :: Matches(f, s) <==>
      (min.Some? ==> min.value <= s.crewSize) && (max.Some? ==> s.crewSize <= max.value)
  {
    RangeFilter(CrewSizeAttr,
      if min.None? then None else Some(min.value as real),
      if max.None? then None else Some(max.value as real))
  }

  function FilterByRating(min: Option<real>, max: Option<real>): (f: Filter)
    ensures f.NoConstraint? <==> min.None? && max.None?
    ensures forall s :: Matches(f, s) <==>
      (min.Some? ==> min.value <= s.rating) && (max.Some? ==> s.rating <= max.value)
  {
    RangeFilter(RatingAttr, min, max)
  }

  /** AND of two fragments, in which `NoConstraint` on either side vanishes. */
  function Combine(a: Filter, b: Filter): (f: Filter)
    ensures forall s :: Matches(f, s) <==> Matches(a, s) && Matches(b, s)
    ensures a.NoConstraint? ==> f == b
    ensures b.NoConstraint? ==> f == a
  {
    if a.NoConstraint? then b
    else if b.NoConstraint? then a
    else And(a, b)
  }

  /** The AND-fold of all fragments of a query. */
  function AllOf(fs: seq<Filter>): (f: Filter)
    ensures forall s :: Matches(f, s) <==> forall i :: 0 <= i < |fs| ==> Matches(fs[i], s)
    ensures (forall i :: 0 <= i < |fs| ==> fs[i].NoConstraint?) ==> f.NoConstraint?
  {
    if |fs| == 0 then NoConstraint
    else
      var rest := AllOf(fs[1..]);
      assert forall i :: 1 <= i < |fs| ==> fs[i] == fs[1..][i - 1];
      Combine(fs[0], rest)
  }

  /**
   * Dropping a `NoConstraint` fragment from a query does not change which
   * ships it matches.
   */
  lemma {:induction false} AllOfSkipsNoConstraint(fs: seq<Filter>, k: nat, s: Ship)
    requires k < |fs| && fs[k].NoConstraint?
    ensures Matches(AllOf(fs), s) <==> Matches(AllOf(fs[..k] + fs[k + 1..]), s)
  {
    var gs := fs[..k] + fs[k + 1..];
    assert forall i :: 0 <= i < k ==> gs[i] == fs[i];
    assert forall i :: k < i < |fs| ==> gs[i - 1] == fs[i];
  }

  /**
   * The date boundaries are asymmetric: a ship produced exactly at `t` is
   * excluded by "before t" and included by "after t"; the two filters split
   * all ships between them.
   */
  lemma BeforeAfterPartition(t: int, s: Ship)
    ensures Matches(FilterBeforeDate(Some(t)), s) <==> !Matches(FilterAfterDate(Some(t)), s)
    ensures s.prodDate == t ==>
      !Matches(FilterBeforeDate(Some(t)), s) && Matches(FilterAfterDate(Some(t)), s)
  {
  }

  /**
   * A two-sided range matches exactly where both of its one-sided halves
   * match, and an inverted range (min > max) matches nothing.
   */
  lemma RangeIsBothHalves(attr: NumericAttr, min: real, max: real, s: Ship)
    ensures Matches(RangeFilter(attr, Some(min), Some(max)), s) <==>
      Matches(RangeFilter(attr, Some(min), None), s) && Matches(RangeFilter(attr, None, Some(max)), s)
    ensures min > max ==> !Matches(RangeFilter(attr, Some(min), Some(max)), s)
  {
  }
}
