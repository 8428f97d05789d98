/** The category filter selector: one value at most per category, where
    selecting a value toggles it, a `hasFilters` test that gates submission,
    and the expand/collapse state of the panel. */
module CategorySelector {
  import opened Types

  /** `handleCategorySelect(category, value)` on the filter object:
      selecting the value the category already holds clears it; any other
      selection sets the category to the value. No other category moves. */
  function Toggle(f: Filters, c: Category, v: string): (r: Filters)
    ensures c in f && f[c] == v ==> c !in r
    ensures !(c in f && f[c] == v) ==> c in r && r[c] == v
    ensures forall d :: d != c ==> (d in r <==> d in f) && (d in r ==> r[d] == f[d])
  {
    if c in f && f[c] == v then f - {c} else f[c := v]
  }

  /** `Object.values(filters).some(v => v !== undefined)`: some category is
      set. */
  predicate HasFilters(f: Filters) {
    f != map[]
  }

  lemma HasFiltersIff(f: Filters)
    ensures HasFilters(f) <==> exists c :: c in f
  {
    if HasFilters(f) {
      var c :| c in f.Keys;
    }
  }

  /** Starting from an unset category, selecting the same value twice
      returns the filters to what they were. */
  lemma {:induction false} ToggleTwiceFromUnset(f: Filters, c: Category, v: string)
    requires c !in f
    ensures Toggle(Toggle(f, c, v), c, v) == f
  {
    var once := Toggle(f, c, v);
    assert once == f[c := v];
    assert once - {c} == f;
  }

  /** Selecting a value that was not already held always leaves a filter
      set, so submission becomes possible. */
  lemma ToggleOnSetsFilter(f: Filters, c: Category, v: string)
    requires !(c in f && f[c] == v)
    ensures HasFilters(Toggle(f, c, v))
  {
    assert c in Toggle(f, c, v);
  }

  /** The selector component: the chosen filters and whether the panel is
      expanded. */
  class Selector {
    var filters: Filters
    var isExpanded: bool

    /** The panel starts collapsed with nothing selected. */
    constructor ()
      ensures filters == map[] && !isExpanded
    {
      filters := map[];
      isExpanded := false;
    }

    method HandleCategorySelect(c: Category, v: string)
      modifies this
      ensures filters == Toggle(old(filters), c, v)
      ensures isExpanded == old(isExpanded)
    {
      filters := Toggle(filters, c, v);
    }

    /** The Show/Hide button flips the panel. */
    method ToggleExpanded()
      modifies this
      ensures isExpanded == !old(isExpanded)
      ensures filters == old(filters)
    {
      isExpanded := !isExpanded;
    }

    /** Submission hands the current filters to the caller unchanged. */
    method HandleSubmit() returns (submitted: Filters)
      ensures submitted == filters
    {
      submitted := filters;
    }

    /** The Generate button is disabled while loading or with no filter
        set. */
    predicate SubmitDisabled(loading: bool)
      reads this
      ensures SubmitDisabled(loading) <==> loading || forall c :: c !in filters
    {
      loading || !HasFilters(filters)
    }
  }
}
