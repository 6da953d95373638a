/** The filter panel of the universities page: the country list with the student's
    preferred countries first, the "Clear" button, and the two select handlers. */
module UniversityFilters {
  import opened JsValues
  import opened Domain
  import opened Seqs
  import opened UniversitiesPage

  /** `preferredCountries.includes(c.value)`. */
  function Preferred(preferred: seq<string>): Country -> bool {
    (c: Country) => c.code in preferred
  }

  /** The complement of `Preferred`. */
  function NotPreferred(preferred: seq<string>): Country -> bool {
    (c: Country) => c.code !in preferred
  }

  /** The preferred countries of a list, then the others, each in list order. */
  function PreferredFirst(preferred: seq<string>, countries: seq<Country>): seq<Country> {
    Filter(Preferred(preferred), countries) + Filter(NotPreferred(preferred), countries)
  }

  /** `sortedCountries`: `COUNTRIES` with the preferred ones first. */
  function SortedCountries(preferred: seq<string>): seq<Country> {
    PreferredFirst(preferred, COUNTRIES)
  }

  /** The list offers every country as often as the original list does, so
      `sortedCountries` lists each of `COUNTRIES` once: a preferred code that is not a
      known country adds nothing. */
  lemma PreferredFirstPermutes(preferred: seq<string>, countries: seq<Country>)
    ensures multiset(PreferredFirst(preferred, countries)) == multiset(countries)
    ensures |PreferredFirst(preferred, countries)| == |countries|
  {
    FilterPartition(Preferred(preferred), NotPreferred(preferred), countries);
  }

  /** `sortedCountries` lists each of `COUNTRIES` exactly as often as `COUNTRIES` does. */
  lemma SortedCountriesPermutes(preferred: seq<string>)
    ensures multiset(SortedCountries(preferred)) == multiset(COUNTRIES)
  {
    PreferredFirstPermutes(preferred, COUNTRIES);
  }

  /** Every preferred country comes before every other one. */
  lemma PreferredComeFirst(preferred: seq<string>, countries: seq<Country>, i: int, j: int)
    requires 0 <= i < j < |PreferredFirst(preferred, countries)|
    ensures PreferredFirst(preferred, countries)[j].code in preferred ==> PreferredFirst(preferred, countries)[i].code in preferred
  {
    var front := Filter(Preferred(preferred), countries);
    var s := PreferredFirst(preferred, countries);
    if j >= |front| {
      assert s[j] == Filter(NotPreferred(preferred), countries)[j - |front|];
      assert NotPreferred(preferred)(s[j]);
    } else {
      assert s[i] == front[i];
      assert Preferred(preferred)(front[i]);
    }
  }

  /** The two option groups of the select, "Your Preferred" and "Other Countries",
      list the matching countries in the order of `COUNTRIES`. */
  lemma GroupsKeepCountryOrder(preferred: seq<string>, countries: seq<Country>)
    ensures Filter(Preferred(preferred), PreferredFirst(preferred, countries)) == Filter(Preferred(preferred), countries)
    ensures Filter(NotPreferred(preferred), PreferredFirst(preferred, countries)) == Filter(NotPreferred(preferred), countries)
  {
    var p, q := Preferred(preferred), NotPreferred(preferred);
    var front, back := Filter(p, countries), Filter(q, countries);
    FilterAppend(p, front, back);
    FilterAppend(q, front, back);
    FilterIdempotent(p, countries);
    FilterIdempotent(q, countries);
    FilterNone(p, back);
    FilterNone(q, front);
    assert front + [] == front;
  }

  /** With no preferred country the list keeps its order. */
  lemma NoPreferenceKeepsOrder(countries: seq<Country>)
    ensures PreferredFirst([], countries) == countries
  {
    FilterNone(Preferred([]), countries);
    FilterAll(NotPreferred([]), countries);
  }

  /** The "Your Preferred" group is drawn whenever the student has preferences, even
      when none of them is a known country. */
  predicate ShowsPreferredGroup(preferred: seq<string>) {
    |preferred| > 0
  }

  /** `hasFilters`: the "Clear" button is offered for a truthy country or category. */
  predicate HasFilters(f: Filters) {
    TruthyText(f.country) || TruthyText(f.category)
  }

  /** Without "Clear" the country and category filters let everything through: only
      the other, unclearable-from-here fields can still hide a university. */
  lemma NoClearMeansOnlyOtherFilters(f: Filters, u: University)
    requires !HasFilters(f)
    ensures PassesFilters(f, u) <==> PassesFilters(f.(country := None, category := None), u)
    ensures forall b: Option<int>, d: Option<string> :: !HasFilters(f.(maxBudget := b, degreeType := d))
  {
  }

  /** The country select: "All Countries" (the empty value) clears the country, any
      other choice sets it; nothing else changes. */
  function SelectCountry(f: Filters, value: string): (g: Filters)
    ensures g.country == NullIfEmpty(value)
    ensures g.(country := f.country) == f
  {
    f.(country := if value == "" then None else Some(value))
  }

  /** The category select stores the chosen value as it is, "" for "All Categories". */
  function SelectCategory(f: Filters, value: string): (g: Filters)
    ensures g.category == Some(value)
    ensures g.(category := f.category) == f
  {
    f.(category := Some(value))
  }

  /** Choosing "All …" in either select undoes the filter: "Clear" then depends only on
      the other select, and the list is filtered as if the field were never set. */
  lemma AllChoiceUnsets(f: Filters, u: University)
    ensures HasFilters(SelectCountry(f, "")) <==> TruthyText(f.category)
    ensures HasFilters(SelectCategory(f, "")) <==> TruthyText(f.country)
    ensures PassesFilters(SelectCountry(f, ""), u) <==> PassesFilters(f.(country := None), u)
    ensures PassesFilters(SelectCategory(f, ""), u) <==> PassesFilters(f.(category := None), u)
  {
  }

  /** Choosing a real value enables "Clear" and demands that value. */
  lemma ChoiceSets(f: Filters, u: University, value: string)
    requires value != ""
    ensures HasFilters(SelectCountry(f, value)) && HasFilters(SelectCategory(f, value))
    ensures PassesFilters(SelectCountry(f, value), u) <==> PassesFilters(f.(country := None), u) && u.country == value
    ensures PassesFilters(SelectCategory(f, value), u) <==> PassesFilters(f.(category := None), u) && u.category == value
  {
  }

  /** The value the country select shows: `filters.country || ""`. */
  function ShownCountry(f: Filters): (s: string)
    ensures s == "" <==> !TruthyText(f.country)
    ensures SelectCountry(f, s).country == (if TruthyText(f.country) then f.country else None)
  {
    EmptyIfNull(f.country)
  }
}
