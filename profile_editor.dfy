/** The profile editor: per-field validation of the fourteen required inputs, the
    dirty flag, and the save and discard actions. */
module ProfileEditor {
  import opened JsValues
  import opened Domain
  import opened Text
  import opened ProfileForm

  /** The inputs `validateAll` checks, in its order; the intake term and the two exam
      scores are not among them. */
  const REQUIRED_FIELDS: seq<FormField> := [
    EducationLevel, DegreeMajor, GraduationYear, GpaPercentage,
    IntendedDegree, FieldOfStudy, TargetIntakeYear, PreferredCountries,
    BudgetMin, BudgetMax, FundingPlan,
    IeltsToeflStatus, GreGmatStatus, SopStatus]

  const GPA_RANGE_MESSAGE := "Please enter a valid GPA (0-4) or percentage (0-100)"
  const BUDGET_ORDER_MESSAGE := "Maximum budget must be greater than minimum"

  /** The message shown for an empty required input. */
  function MissingMessage(f: FormField): string {
    match f
    case EducationLevel => "Please select your education level"
    case DegreeMajor => "Please enter your degree or major"
    case GraduationYear => "Please select your graduation year"
    case GpaPercentage => "Please enter your GPA or percentage"
    case IntendedDegree => "Please select your intended degree"
    case FieldOfStudy => "Please select your field of study"
    case TargetIntakeYear => "Please select your target intake year"
    case PreferredCountries => "Please select at least one country"
    case BudgetMin => "Please enter your minimum budget"
    case BudgetMax => "Please enter your maximum budget"
    case FundingPlan => "Please select your funding plan"
    case IeltsToeflStatus => "Please select your IELTS/TOEFL status"
    case GreGmatStatus => "Please select your GRE/GMAT status"
    case SopStatus => "Please select your SOP status"
    case _ => ""
  }

  /** Both budget bounds parse and the minimum is above the maximum (a NaN on either
      side makes the comparison false). */
  predicate BudgetInverted(form: FormData, parsers: Parsers) {
    form.budget_min != "" && parsers.parseInt(form.budget_min).Some? && parsers.parseInt(form.budget_max).Some?
    && parsers.parseInt(form.budget_min).value > parsers.parseInt(form.budget_max).value
  }

  /** `validateField`: the error message for one input, or none. */
  function ValidateField(form: FormData, f: FormField, parsers: Parsers): (r: Option<string>)
  {
    match f
    case DegreeMajor => if Trim(form.degree_major) == "" then Some(MissingMessage(f)) else None
    case GpaPercentage =>
      if form.gpa_percentage == "" then Some(MissingMessage(f))
      else
        var gpa := parsers.parseFloat(form.gpa_percentage);
        if gpa.None? || gpa.value < 0.0 || gpa.value > 100.0 then Some(GPA_RANGE_MESSAGE) else None
    case PreferredCountries => if form.preferred_countries == [] then Some(MissingMessage(f)) else None
    case BudgetMax =>
      if form.budget_max == "" then Some(MissingMessage(f))
      else if BudgetInverted(form, parsers) then Some(BUDGET_ORDER_MESSAGE)
      else None
    case TargetIntakeTerm => None
    case IeltsToeflScore => None
    case GreGmatScore => None
    case _ => if Get(form, f).s == "" then Some(MissingMessage(f)) else None
  }

  /** A plain required input errs exactly when it is empty: no trimming, no range
      check. */
  lemma PlainFieldsRequireText(form: FormData, f: FormField, parsers: Parsers)
    requires f in {EducationLevel, GraduationYear, IntendedDegree, FieldOfStudy, TargetIntakeYear,
                   BudgetMin, FundingPlan, IeltsToeflStatus, GreGmatStatus, SopStatus}
    ensures ValidateField(form, f, parsers) == if Get(form, f) == Text("") then Some(MissingMessage(f)) else None
  {
  }

  /** The degree or major errs when it is empty or only whitespace. */
  lemma DegreeMajorRejectsBlank(form: FormData, parsers: Parsers)
    ensures ValidateField(form, DegreeMajor, parsers).Some? <==>
      forall i :: 0 <= i < |form.degree_major| ==> IsSpace(form.degree_major[i])
  {
    TrimEmptyIffAllSpace(form.degree_major);
  }

  /** The GPA must be present and parse to a number from 0 to 100. */
  lemma GpaMustParseInRange(form: FormData, parsers: Parsers)
    ensures ValidateField(form, GpaPercentage, parsers).None? <==>
      form.gpa_percentage != "" && parsers.parseFloat(form.gpa_percentage).Some?
      && 0.0 <= parsers.parseFloat(form.gpa_percentage).value <= 100.0
    ensures form.gpa_percentage != "" && ValidateField(form, GpaPercentage, parsers).Some? ==>
      ValidateField(form, GpaPercentage, parsers) == Some(GPA_RANGE_MESSAGE)
  {
  }

  /** The maximum budget errs when empty, and otherwise when both bounds parse and the
      minimum is above it; equal bounds pass. */
  lemma BudgetMaxRule(form: FormData, parsers: Parsers)
    ensures ValidateField(form, BudgetMax, parsers) == Some(BUDGET_ORDER_MESSAGE) <==>
      form.budget_max != "" && BudgetInverted(form, parsers)
    ensures ValidateField(form, BudgetMax, parsers).None? <==> form.budget_max != "" && !BudgetInverted(form, parsers)
    ensures form.budget_min == form.budget_max && form.budget_max != "" ==> ValidateField(form, BudgetMax, parsers).None?
  {
  }

  /** The country list must not be empty; the optional inputs never err. */
  lemma CountriesAndOptionalInputs(form: FormData, parsers: Parsers)
    ensures ValidateField(form, PreferredCountries, parsers).Some? <==> form.preferred_countries == []
    ensures ValidateField(form, TargetIntakeTerm, parsers).None?
    ensures ValidateField(form, IeltsToeflScore, parsers).None?
    ensures ValidateField(form, GreGmatScore, parsers).None?
  {
  }

  /** The errors recorded for a list of inputs, in list order. */
  function ErrorsIn(form: FormData, fields: seq<FormField>, parsers: Parsers): (m: map<FormField, string>)
    ensures forall f :: f in m <==> f in fields && ValidateField(form, f, parsers).Some?
    ensures forall f :: f in m ==> m[f] == ValidateField(form, f, parsers).value
    decreases |fields|
  {
    if fields == [] then map[]
    else
      var last := fields[|fields| - 1];
      var m := ErrorsIn(form, fields[..|fields| - 1], parsers);
      assert forall f :: f in fields <==> f in fields[..|fields| - 1] || f == last;
      var e := ValidateField(form, last, parsers);
      if e.Some? then m[last := e.value] else m
  }

  /** The errors `validateAll` records: exactly the failing required inputs. */
  function ErrorsOf(form: FormData, parsers: Parsers): (m: map<FormField, string>)
    ensures forall f :: f in m <==> f in REQUIRED_FIELDS && ValidateField(form, f, parsers).Some?
    ensures forall f :: f in m ==> m[f] == ValidateField(form, f, parsers).value
  {
    ErrorsIn(form, REQUIRED_FIELDS, parsers)
  }

  /** `originalData` and `formData` are compared through `JSON.stringify`, which tells
      two forms apart exactly when they differ. */
  class ProfileEditorState {
    var profile: Option<Profile>
    var formData: FormData
    var originalData: FormData
    var errors: map<FormField, string>
    var loading: bool
    var saving: bool
    var hasChanges: bool

    /** The change-tracking effect has run: the flag mirrors the comparison. */
    predicate Tracked()
      reads this
    {
      hasChanges == (formData != originalData)
    }

    constructor ()
      ensures profile == None && formData == EmptyForm && originalData == EmptyForm
      ensures errors == map[] && loading && !saving && !hasChanges && Tracked()
    {
      profile := None;
      formData := EmptyForm;
      originalData := EmptyForm;
      errors := map[];
      loading := true;
      saving := false;
      hasChanges := false;
    }

    /** The initial load: a returned row fills both the form and its saved copy; no
        session, a failed query or no row leaves the form as it was. */
    method FetchProfile(hasSession: bool, queryOk: bool, row: Option<Profile>, printers: Printers)
      modifies this`profile, this`formData, this`originalData, this`loading, this`hasChanges
      ensures !loading && Tracked()
      ensures hasSession && queryOk && row.Some? ==>
        profile == row && formData == FormOf(row.value, printers) && originalData == formData && !hasChanges
      ensures !(hasSession && queryOk && row.Some?) ==>
        profile == old(profile) && formData == old(formData) && originalData == old(originalData)
    {
      if hasSession && queryOk && row.Some? {
        profile := row;
        var loaded := FormOf(row.value, printers);
        formData := loaded;
        originalData := loaded;
      }
      loading := false;
      hasChanges := formData != originalData;
    }

    /** `updateField`: set one input and forget that input's error only. */
    method UpdateField(f: FormField, v: FieldInput)
      requires Fits(f, v)
      modifies this`formData, this`errors, this`hasChanges
      ensures formData == Set(old(formData), f, v)
      ensures errors == old(errors) - {f}
      ensures Tracked()
    {
      formData := Set(formData, f, v);
      errors := errors - {f};
      hasChanges := formData != originalData;
    }

    /** `validateAll`: run `validateField` over the required inputs, keep the failures
        as the new errors, and succeed iff there are none. */
    method ValidateAll(parsers: Parsers) returns (ok: bool)
      modifies this`errors
      ensures errors == ErrorsOf(formData, parsers)
      ensures ok <==> errors == map[]
      ensures ok <==> forall f :: f in REQUIRED_FIELDS ==> ValidateField(formData, f, parsers).None?
    {
      var newErrors: map<FormField, string> := map[];
      for i := 0 to |REQUIRED_FIELDS|
        invariant newErrors == ErrorsIn(formData, REQUIRED_FIELDS[..i], parsers)
      {
        var field := REQUIRED_FIELDS[i];
        assert REQUIRED_FIELDS[..i + 1][..i] == REQUIRED_FIELDS[..i];
        var error := ValidateField(formData, field, parsers);
        if error.Some? {
          newErrors := newErrors[field := error.value];
        }
      }
      assert REQUIRED_FIELDS[..|REQUIRED_FIELDS|] == REQUIRED_FIELDS;
      errors := newErrors;
      ok := |newErrors| == 0;
      if !ok {
        var f :| f in newErrors;
      }
      ValidExactlyWhenNoErrors(formData, parsers);
    }

    /** `saveProfile`: an invalid form is refused before any update; without a session
        nothing is sent; otherwise the form's data is sent and, when the update
        succeeds, becomes the saved copy, so nothing is left unsaved. */
    method SaveProfile(parsers: Parsers, hasSession: bool, updateOk: bool) returns (ok: bool, sent: Option<ProfileData>)
      modifies this`errors, this`originalData, this`saving, this`hasChanges
      requires Tracked()
      ensures errors == ErrorsOf(formData, parsers) && Tracked()
      ensures saving == (if errors == map[] then false else old(saving))
      ensures errors != map[] ==> !ok && sent.None? && originalData == old(originalData)
      ensures errors == map[] && !hasSession ==> !ok && sent.None? && originalData == old(originalData)
      ensures errors == map[] && hasSession ==> sent == Some(DataFrom(formData, parsers))
      ensures ok <==> errors == map[] && hasSession && updateOk
      ensures ok ==> originalData == formData && !hasChanges
      ensures !ok ==> originalData == old(originalData)
    {
      var valid := ValidateAll(parsers);
      if !valid {
        return false, None;
      }
      saving := true;
      if !hasSession {
        saving := false;
        return false, None;
      }
      sent := Some(DataFrom(formData, parsers));
      if !updateOk {
        saving := false;
        return false, sent;
      }
      originalData := formData;
      hasChanges := false;
      saving := false;
      ok := true;
    }

    /** `discardChanges`: back to the saved copy, with no errors. */
    method DiscardChanges()
      modifies this`formData, this`errors, this`hasChanges
      ensures formData == originalData && errors == map[] && !hasChanges && Tracked()
    {
      formData := originalData;
      errors := map[];
      hasChanges := false;
    }
  }

  /** A form passes `validateAll` exactly when no required input has an error. */
  lemma ValidExactlyWhenNoErrors(form: FormData, parsers: Parsers)
    ensures ErrorsOf(form, parsers) == map[] <==> forall f :: f in REQUIRED_FIELDS ==> ValidateField(form, f, parsers).None?
  {
    var m := ErrorsOf(form, parsers);
    if m != map[] {
      var f :| f in m;
    }
    if exists f :: f in REQUIRED_FIELDS && ValidateField(form, f, parsers).Some? {
      var f :| f in REQUIRED_FIELDS && ValidateField(form, f, parsers).Some?;
      assert f in m;
    }
  }

  /** The intake term and the exam scores are never recorded as errors. */
  lemma OptionalInputsNeverErr(form: FormData, parsers: Parsers)
    ensures TargetIntakeTerm !in ErrorsOf(form, parsers) && IeltsToeflScore !in ErrorsOf(form, parsers)
      && GreGmatScore !in ErrorsOf(form, parsers)
  {
  }

  /** Editing a field and then editing it back leaves the form as loaded. */
  lemma EditBackRestores(form: FormData, f: FormField, v: FieldInput)
    requires Fits(f, v)
    ensures Set(Set(form, f, v), f, Get(form, f)) == form
  {
  }
}
