/** The task list of the application page: one collapsible section per non-empty
    category, in a fixed order, each opened or closed by its header. */
module TaskList {
  import opened Domain
  import opened Seqs
  import opened ApplicationTasks

  /** A set with one member flipped: removed when present, added when absent. */
  function Toggled(open: set<string>, category: string): (r: set<string>)
    ensures category in r <==> category !in open
    ensures forall c :: c != category ==> (c in r <==> c in open)
  {
    if category in open then open - {category} else open + {category}
  }

  /** Flipping the same category twice gives the set back. */
  lemma ToggleTwiceRestores(open: set<string>, category: string)
    ensures Toggled(Toggled(open, category), category) == open
  {
  }

  /** The five categories as a set. */
  function AllCategories(): (s: set<string>)
    ensures forall c :: c in s <==> c in CATEGORY_ORDER
  {
    set c | c in CATEGORY_ORDER
  }

  class TaskListState {
    var openCategories: set<string>

    /** Every section starts open. */
    constructor ()
      ensures openCategories == AllCategories()
    {
      openCategories := AllCategories();
    }

    /** `toggleCategory`: copy the set, then delete or add the category in the copy. */
    method ToggleCategory(category: string)
      modifies this
      ensures openCategories == Toggled(old(openCategories), category)
    {
      var next := openCategories;
      if category in next {
        next := next - {category};
      } else {
        next := next + {category};
      }
      openCategories := next;
    }

    /** Whether a section is drawn open. */
    predicate IsOpen(category: string)
      reads this
    {
      category in openCategories
    }
  }

  /** A category is drawn when its group exists and is not empty. */
  function HasSection(groups: map<string, seq<ApplicationTask>>): string -> bool {
    (c: string) => c in groups && |groups[c]| > 0
  }

  /** The sections drawn for an order of categories, in that order. */
  function Sections(groups: map<string, seq<ApplicationTask>>, order: seq<string>): (r: seq<string>)
    ensures IsSubsequence(r, order)
    ensures forall c :: c in r <==> c in order && c in groups && |groups[c]| > 0
  {
    FilterIsSubsequence(HasSection(groups), order);
    Filter(HasSection(groups), order)
  }

  /** The sections of the list: `CATEGORY_ORDER`, skipping missing or empty groups. */
  function RenderedCategories(groups: map<string, seq<ApplicationTask>>): seq<string> {
    Sections(groups, CATEGORY_ORDER)
  }

  /** For the grouping the hook computes, a category is drawn exactly when it is one
      of the five and some task has it. */
  lemma SectionsOfGrouping(ts: seq<ApplicationTask>, groups: map<string, seq<ApplicationTask>>, order: seq<string>, c: string)
    requires forall c :: c in groups <==> exists i :: 0 <= i < |ts| && ts[i].category == c
    requires forall c :: c in groups ==> groups[c] == InCategory(ts, c)
    ensures c in Sections(groups, order) <==> c in order && exists i :: 0 <= i < |ts| && ts[i].category == c
  {
    InCategoryEmptyIff(ts, c);
  }
}
