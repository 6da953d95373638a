/** The university discovery page: the filter applied to both the recommendations and
    the shortlist, the dream/target/safe grouping, the shortlist sections, the lock
    prompt, and the unlock confirmation dialog. */
module UniversitiesPage {
  import opened JsValues
  import opened Domain
  import opened Seqs
  import opened DashboardStats
  import opened UniversitiesHook

  /** The page's filter state; every field may be absent, and an empty string (what
      the "All Categories" choice stores) is falsy and so counts as unset. */
  datatype Filters = Filters(
    country: Option<string>,
    category: Option<string>,
    maxBudget: Option<int>,
    degreeType: Option<string>,
    field: Option<string>,
    intakeYear: Option<int>,
    competitionLevel: Option<string>)

  const NoFilters := Filters(None, None, None, None, None, None, None)

  /** Tuition plus living cost, a missing amount counting as 0. */
  function TotalCost(u: University): int {
    GetOr(u.tuition_per_year, 0) + GetOr(u.living_cost_per_year, 0)
  }

  /** `applyFilters`: each truthy text filter demands equality with the university's
      field; a present budget (0 included) rejects a total above it. */
  predicate PassesFilters(f: Filters, u: University) {
    (!TruthyText(f.country) || u.country == f.country.value)
    && (!TruthyText(f.category) || u.category == f.category.value)
    && (!TruthyText(f.degreeType) || u.degree_type == f.degreeType.value)
    && (!TruthyText(f.field) || u.field_of_study == Some(f.field.value))
    && (!TruthyText(f.competitionLevel) || u.acceptance_likelihood == Some(f.competitionLevel.value))
    && (f.maxBudget.None? || TotalCost(u) <= f.maxBudget.value)
  }

  /** `list.filter(applyFilters)`: the universities that pass, in list order. */
  function Filtered(f: Filters, us: seq<University>): (r: seq<University>)
    ensures forall i :: 0 <= i < |r| ==> PassesFilters(f, r[i]) && r[i] in us
    ensures forall i :: 0 <= i < |us| && PassesFilters(f, us[i]) ==> us[i] in r
    ensures IsSubsequence(r, us)
  {
    FilterIsSubsequence((u: University) => PassesFilters(f, u), us);
    Filter((u: University) => PassesFilters(f, u), us)
  }

  /** With no filter set every university passes, so both lists show in full. */
  lemma EmptyFiltersKeepEverything(us: seq<University>)
    ensures forall u :: PassesFilters(NoFilters, u)
    ensures Filtered(NoFilters, us) == us
  {
    FilterAll((u: University) => PassesFilters(NoFilters, u), us);
  }

  /** Setting a text filter to a non-empty value adds exactly the equality test on its
      field to what the rest of the filter demands. */
  lemma TextFiltersDemandEquality(f: Filters, u: University, v: string)
    requires v != ""
    ensures PassesFilters(f.(country := Some(v)), u) <==> PassesFilters(f.(country := None), u) && u.country == v
    ensures PassesFilters(f.(category := Some(v)), u) <==> PassesFilters(f.(category := None), u) && u.category == v
    ensures PassesFilters(f.(degreeType := Some(v)), u) <==> PassesFilters(f.(degreeType := None), u) && u.degree_type == v
    ensures PassesFilters(f.(field := Some(v)), u) <==> PassesFilters(f.(field := None), u) && u.field_of_study == Some(v)
    ensures PassesFilters(f.(competitionLevel := Some(v)), u) <==>
      PassesFilters(f.(competitionLevel := None), u) && u.acceptance_likelihood == Some(v)
  {
  }

  /** "All Categories" stores the empty string, which filters exactly like no
      category at all. */
  lemma EmptyCategoryIsUnset(f: Filters, u: University)
    ensures PassesFilters(f.(category := Some("")), u) <==> PassesFilters(f.(category := None), u)
    ensures PassesFilters(f.(country := Some("")), u) <==> PassesFilters(f.(country := None), u)
  {
  }

  /** A budget rejects a university exactly when its total cost is above it: equality
      passes, and a budget of 0 still applies. */
  lemma BudgetRejectsOnlyAbove(f: Filters, u: University, m: int)
    ensures PassesFilters(f.(maxBudget := Some(m)), u) <==> PassesFilters(f.(maxBudget := None), u) && TotalCost(u) <= m
    ensures TotalCost(u) > 0 ==> !PassesFilters(f.(maxBudget := Some(0)), u)
  {
  }

  /** The intake year is part of the filter type but never looked at. */
  lemma IntakeYearIgnored(f: Filters, u: University, y: Option<int>)
    ensures PassesFilters(f.(intakeYear := y), u) <==> PassesFilters(f, u)
  {
  }

  /** `g` constrains at least what `f` does: every text filter `f` sets, `g` sets to
      the same value, and `g`'s budget is present and no larger than `f`'s. */
  predicate Tightens(g: Filters, f: Filters) {
    (TruthyText(f.country) ==> g.country == f.country)
    && (TruthyText(f.category) ==> g.category == f.category)
    && (TruthyText(f.degreeType) ==> g.degreeType == f.degreeType)
    && (TruthyText(f.field) ==> g.field == f.field)
    && (TruthyText(f.competitionLevel) ==> g.competitionLevel == f.competitionLevel)
    && (f.maxBudget.Some? ==> g.maxBudget.Some? && g.maxBudget.value <= f.maxBudget.value)
  }

  /** Adding or tightening a constraint can only shrink a filtered list, and what is
      left keeps its order. */
  lemma TighterFiltersShrink(g: Filters, f: Filters, us: seq<University>)
    requires Tightens(g, f)
    ensures forall u :: PassesFilters(g, u) ==> PassesFilters(f, u)
    ensures IsSubsequence(Filtered(g, us), Filtered(f, us))
    ensures |Filtered(g, us)| <= |Filtered(f, us)|
  {
    FilterStrongerIsSubsequence((u: University) => PassesFilters(f, u), (u: University) => PassesFilters(g, u), us);
    SubsequenceLength(Filtered(g, us), Filtered(f, us));
  }

  // --------------------------------------------------------- category groups

  /** The universities of one category, in list order. */
  function CategoryGroup(us: seq<University>, c: string): (r: seq<University>)
    ensures forall i :: 0 <= i < |r| ==> r[i].category == c && r[i] in us
    ensures forall i :: 0 <= i < |us| && us[i].category == c ==> us[i] in r
    ensures IsSubsequence(r, us)
  {
    FilterIsSubsequence((u: University) => u.category == c, us);
    Filter((u: University) => u.category == c, us)
  }

  /** The recommendation categories, in display order. */
  datatype Category = Dream | Target | Safe

  function CategoryName(c: Category): string {
    match c
    case Dream => DREAM
    case Target => TARGET
    case Safe => SAFE
  }

  function CategoryRank(c: Category): int {
    match c
    case Dream => 0
    case Target => 1
    case Safe => 2
  }

  /** The recommendation tab's sections: dream, target and safe in that order, an
      empty category skipped; section `c` lists `CategoryGroup(filtered, CategoryName(c))`. */
  function CategorySections(filtered: seq<University>): (r: seq<Category>)
    ensures Dream in r <==> CategoryGroup(filtered, DREAM) != []
    ensures Target in r <==> CategoryGroup(filtered, TARGET) != []
    ensures Safe in r <==> CategoryGroup(filtered, SAFE) != []
    ensures forall i, j :: 0 <= i < j < |r| ==> CategoryRank(r[i]) < CategoryRank(r[j])
  {
    (if CategoryGroup(filtered, DREAM) != [] then [Dream] else [])
    + (if CategoryGroup(filtered, TARGET) != [] then [Target] else [])
    + (if CategoryGroup(filtered, SAFE) != [] then [Safe] else [])
  }

  /** When every recommendation is dream, target or safe, the three groups together
      hold all of them. */
  lemma {:induction false} GroupsCoverList(us: seq<University>)
    requires forall i :: 0 <= i < |us| ==> us[i].category in [DREAM, TARGET, SAFE]
    ensures |CategoryGroup(us, DREAM)| + |CategoryGroup(us, TARGET)| + |CategoryGroup(us, SAFE)| == |us|
    decreases |us|
  {
    if us != [] {
      GroupsCoverList(us[1..]);
    }
  }

  // ------------------------------------------------------------ shortlist tab

  /** A shortlist section: the heading appears when the unfiltered shortlist has such
      entries, while the cards listed under it come from the filtered shortlist. */
  datatype Section = Hidden | Shown(cards: seq<University>)

  function LockedSection(f: Filters, shortlisted: seq<University>): (s: Section)
    ensures s.Shown? <==> LockedCount(shortlisted) > 0
    ensures s.Shown? ==> forall i :: 0 <= i < |s.cards| ==>
      s.cards[i].is_locked && PassesFilters(f, s.cards[i]) && s.cards[i] in shortlisted
    ensures s.Shown? ==> forall i :: 0 <= i < |shortlisted| && shortlisted[i].is_locked && PassesFilters(f, shortlisted[i]) ==>
      shortlisted[i] in s.cards
  {
    if LockedCount(shortlisted) > 0 then Shown(Filter((u: University) => u.is_locked, Filtered(f, shortlisted))) else Hidden
  }

  function UnlockedSection(f: Filters, shortlisted: seq<University>): (s: Section)
    ensures s.Shown? <==> exists i :: 0 <= i < |shortlisted| && !shortlisted[i].is_locked
    ensures s.Shown? ==> forall i :: 0 <= i < |s.cards| ==>
      !s.cards[i].is_locked && PassesFilters(f, s.cards[i]) && s.cards[i] in shortlisted
    ensures s.Shown? ==> forall i :: 0 <= i < |shortlisted| && !shortlisted[i].is_locked && PassesFilters(f, shortlisted[i]) ==>
      shortlisted[i] in s.cards
  {
    FilterNonEmpty((u: University) => !u.is_locked, shortlisted);
    if Filter((u: University) => !u.is_locked, shortlisted) != [] then
      Shown(Filter((u: University) => !u.is_locked, Filtered(f, shortlisted)))
    else Hidden
  }

  /** The "Lock at least one university" prompt. */
  predicate ShowLockPrompt(shortlisted: seq<University>) {
    |shortlisted| > 0 && LockedCount(shortlisted) == 0
  }

  /** The prompt shows exactly when something is shortlisted and nothing is locked; a
      successful lock of a shortlisted entry hides it. */
  lemma LockPromptRule(shortlisted: seq<University>, id: string)
    ensures ShowLockPrompt(shortlisted) <==>
      |shortlisted| > 0 && forall i :: 0 <= i < |shortlisted| ==> !shortlisted[i].is_locked
    ensures (exists i :: 0 <= i < |shortlisted| && shortlisted[i].id == Some(id)) ==>
      !ShowLockPrompt(SetLocked(shortlisted, id, true))
  {
    LockedCountAfterUpdate(shortlisted, id);
  }

  // ------------------------------------------------------------ unlock dialog

  /** The page's own state: the filters and the id waiting for unlock confirmation. */
  class UniversitiesPageState {
    var filters: Filters
    var unlockDialog: Option<string>

    constructor ()
      ensures filters == NoFilters && unlockDialog == None
    {
      filters := NoFilters;
      unlockDialog := None;
    }

    /** The confirmation dialog is open while a truthy id is pending. */
    predicate DialogOpen()
      reads this
    {
      TruthyText(unlockDialog)
    }

    /** `handleUnlock`: the card's unlock button only asks for confirmation. */
    method HandleUnlock(id: string)
      modifies this`unlockDialog
      ensures unlockDialog == Some(id)
    {
      unlockDialog := Some(id);
    }

    /** Cancelling, or any other close of the dialog, forgets the pending id. */
    method CloseDialog()
      modifies this`unlockDialog
      ensures unlockDialog == None && !DialogOpen()
    {
      unlockDialog := None;
    }

    /** `confirmUnlock`: with a pending id, unlock it through the hook and clear the
        pending id; with none, do nothing at all. */
    method ConfirmUnlock(hook: UniversitiesHookState, updateOk: bool)
      modifies this`unlockDialog, hook`shortlisted, hook`syncRequests
      ensures !old(DialogOpen()) ==> (unlockDialog == old(unlockDialog)
        && hook.shortlisted == old(hook.shortlisted) && hook.syncRequests == old(hook.syncRequests))
      ensures old(DialogOpen()) ==> unlockDialog == None
      ensures old(DialogOpen()) && updateOk ==> (hook.shortlisted == SetLocked(old(hook.shortlisted), old(unlockDialog).value, false)
        && hook.syncRequests == old(hook.syncRequests) + (if LockedCount(hook.shortlisted) == 0 then [Discover] else []))
      ensures old(DialogOpen()) && !updateOk ==>
        hook.shortlisted == old(hook.shortlisted) && hook.syncRequests == old(hook.syncRequests)
    {
      if TruthyText(unlockDialog) {
        hook.UnlockUniversity(unlockDialog.value, updateOk);
        unlockDialog := None;
      }
    }
  }
}
