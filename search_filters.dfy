/** The filter panel of the catalogue: the filter record (`SearchFiltersState`),
    the per-field updates the panel hands to its parent, the "has active
    filters" test that shows the reset button, and the year-range slider. */
module SearchFilters {

  /** The fields of the filter record: titulo, director, genero, año,
      año_min, año_max and clasificacion. */
  datatype Field = Title | Director | Genre | Year | YearMin | YearMax | Rating

  /** A field's value. A key can be present with the value `undefined`
      (the spread `{...filters, genero: undefined}` creates one), which is
      not the same as the key being absent. */
  datatype FieldValue = Undefined | Text(text: string) | Number(n: int)

  type Filters = map<Field, FieldValue>

  /** The lowest year the slider offers and the fallback lower bound. */
  const FirstFilmYear: int := 1888

  predicate IsNumeric(k: Field) {
    k == Year || k == YearMin || k == YearMax
  }

  /** Text fields hold text and year fields hold numbers, or `undefined`. */
  predicate WellTyped(filters: Filters) {
    forall k :: k in filters ==>
      match filters[k]
      case Undefined => true
      case Text(_) => !IsNumeric(k)
      case Number(_) => IsNumeric(k)
  }

  /** `hasActiveFilters`: some key holds a value other than `undefined`. An
      empty title counts. */
  predicate HasActiveFilters(filters: Filters) {
    exists k :: k in filters && filters[k] != Undefined
  }

  /** `filters.k || fallback` for a year field: `undefined`, a missing key
      and 0 are falsy. */
  function YearOr(filters: Filters, k: Field, fallback: int): int {
    if k in filters && filters[k].Number? && filters[k].n != 0 then filters[k].n else fallback
  }

  /** The slider's initial range: año_min or 1888, año_max or the current year. */
  function InitialYearRange(filters: Filters, currentYear: int): (int, int) {
    (YearOr(filters, YearMin, FirstFilmYear), YearOr(filters, YearMax, currentYear))
  }

  /** The range falls back to 1888 and the current year exactly when the
      bounds are missing, `undefined` or 0, and is taken from the record
      otherwise. */
  lemma InitialYearRangeFallback(filters: Filters, currentYear: int)
    ensures var (lo, hi) := InitialYearRange(filters, currentYear);
      && (YearMin !in filters || filters[YearMin] in {Undefined, Number(0)} ==> lo == FirstFilmYear)
      && (YearMax !in filters || filters[YearMax] in {Undefined, Number(0)} ==> hi == currentYear)
      && (YearMin in filters && filters[YearMin].Number? && filters[YearMin].n != 0 ==> lo == filters[YearMin].n)
      && (YearMax in filters && filters[YearMax].Number? && filters[YearMax].n != 0 ==> hi == filters[YearMax].n)
  {
  }

  /** The title and director inputs: `{...filters, k: typed}`, the raw
      string, empty or not. */
  function TypeText(filters: Filters, k: Field, typed: string): (r: Filters)
    requires k == Title || k == Director
    ensures r.Keys == filters.Keys + {k} && r[k] == Text(typed)
    ensures forall j :: j in filters && j != k ==> r[j] == filters[j]
    ensures HasActiveFilters(r)
    ensures WellTyped(filters) ==> WellTyped(r)
  {
    filters[k := Text(typed)]
  }

  /** The genre and classification selects: `{...filters, k: value || undefined}`;
      an empty selection is stored as `undefined`, anything else (the
      "todos"/"todas" items included) verbatim. */
  function SelectOption(filters: Filters, k: Field, value: string): (r: Filters)
    requires k == Genre || k == Rating
    ensures r.Keys == filters.Keys + {k}
    ensures r[k] == if value == "" then Undefined else Text(value)
    ensures forall j :: j in filters && j != k ==> r[j] == filters[j]
    ensures value != "" ==> HasActiveFilters(r)
    ensures WellTyped(filters) ==> WellTyped(r)
  {
    filters[k := if value == "" then Undefined else Text(value)]
  }

  /** The record a slider move hands to the parent: both bounds set to the
      slider values, every other field as it was. */
  function WithYearRange(filters: Filters, lo: int, hi: int): (r: Filters)
    ensures r.Keys == filters.Keys + {YearMin, YearMax}
    ensures r[YearMin] == Number(lo) && r[YearMax] == Number(hi)
    ensures forall j :: j in filters && j != YearMin && j != YearMax ==> r[j] == filters[j]
    ensures HasActiveFilters(r)
    ensures WellTyped(filters) ==> WellTyped(r)
  {
    filters[YearMin := Number(lo)][YearMax := Number(hi)]
  }

  /** An active filter needs a key, but a key does not make a filter
      active: the catalogue, which counts keys, searches with a record
      whose reset button the panel hides. */
  lemma KeysWithoutActiveFilters(filters: Filters)
    ensures HasActiveFilters(filters) ==> |filters| > 0
    ensures var r := SelectOption(map[], Genre, ""); |r| > 0 && !HasActiveFilters(r)
  {
    if HasActiveFilters(filters) {
      var k :| k in filters && filters[k] != Undefined;
      assert k in filters.Keys;
    }
    var r := SelectOption(map[], Genre, "");
    assert Genre in r.Keys;
  }

  /** The panel's own state: the slider range. The filter record itself
      belongs to the catalogue page and arrives as a parameter. */
  class SearchFiltersPanel {
    var yearRange: (int, int)

    constructor (filters: Filters, currentYear: int)
      ensures yearRange == InitialYearRange(filters, currentYear)
    {
      yearRange := InitialYearRange(filters, currentYear);
    }

    /** `handleYearRangeChange`: the slider reports its two values; the
        panel shows them and hands the parent the updated record. */
    method HandleYearRangeChange(filters: Filters, values: seq<int>) returns (changed: Filters)
      requires |values| == 2
      modifies this
      ensures yearRange == (values[0], values[1])
      ensures changed == WithYearRange(filters, values[0], values[1])
    {
      yearRange := (values[0], values[1]);
      changed := WithYearRange(filters, values[0], values[1]);
    }
  }
}
