/** The study-goals step of the onboarding wizard: the preferred-country checkboxes
    and the intake-year choices. */
module StudyGoalsStep {
  import opened Domain
  import opened Seqs
  import opened ProfileForm

  function Other(country: string): string -> bool {
    (c: string) => c != country
  }

  /** `toggleCountry`'s new list: a chosen country is removed, every occurrence of it;
      any other is appended. */
  function ToggleCountry(current: seq<string>, country: string): (r: seq<string>)
    ensures country in r <==> country !in current
    ensures forall c :: c != country ==> (c in r <==> c in current)
    ensures country in current ==> |r| < |current|
    ensures country !in current ==> r == current + [country]
  {
    if country in current then
      var kept := Filter(Other(country), current);
      FilterPartition(Other(country), (c: string) => !Other(country)(c), current);
      FilterNonEmpty((c: string) => !Other(country)(c), current);
      kept
    else current + [country]
  }

  /** Removing a chosen country keeps the others in their order. */
  lemma RemovalKeepsOrder(current: seq<string>, country: string)
    requires country in current
    ensures IsSubsequence(ToggleCountry(current, country), current)
    ensures forall i :: 0 <= i < |ToggleCountry(current, country)| ==> ToggleCountry(current, country)[i] != country
  {
    FilterIsSubsequence(Other(country), current);
  }

  /** Choosing a new country and then unchoosing it gives the list back. */
  lemma ToggleAbsentTwice(current: seq<string>, country: string)
    requires country !in current
    ensures ToggleCountry(ToggleCountry(current, country), country) == current
  {
    FilterSnoc(Other(country), current, country);
    FilterAll(Other(country), current);
  }

  /** Unchoosing a country and choosing it again moves it to the end, with repeated
      entries of it collapsed into one. */
  lemma TogglePresentTwice(current: seq<string>, country: string)
    requires country in current
    ensures ToggleCountry(ToggleCountry(current, country), country) == Filter(Other(country), current) + [country]
  {
  }

  /** The checkbox of a country is checked when its code is in the list. */
  predicate Checked(form: FormData, code: string) {
    code in form.preferred_countries
  }

  /** A click flips the clicked checkbox and no other. */
  lemma ClickFlipsOneBox(form: FormData, code: string, other: string)
    ensures var form' := Set(form, PreferredCountries, Codes(ToggleCountry(form.preferred_countries, code)));
      (Checked(form', other) <==> if other == code then !Checked(form, code) else Checked(form, other))
      && form'.(preferred_countries := form.preferred_countries) == form
  {
  }

  /** `intakeYears`: five years from the current one. */
  function IntakeYears(currentYear: int): (ys: seq<int>)
    ensures |ys| == 5
  {
    seq(5, i => currentYear + i)
  }

  /** The offered years are exactly the current year and the four after it, each once,
      in increasing order. */
  lemma IntakeYearsAreNextFive(currentYear: int, y: int)
    ensures y in IntakeYears(currentYear) <==> currentYear <= y < currentYear + 5
    ensures forall i, j :: 0 <= i < j < 5 ==> IntakeYears(currentYear)[i] < IntakeYears(currentYear)[j]
  {
    if currentYear <= y < currentYear + 5 {
      assert IntakeYears(currentYear)[y - currentYear] == y;
    }
  }
}
