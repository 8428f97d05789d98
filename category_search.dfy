/** The category-search page: the filter toggles, the optional free-text
    comments, the generation request it sends and the search-history entry
    it writes after a successful generation. */
module CategorySearch {
  import opened Types
  import opened Text
  import opened CategorySelector

  /** The request body `{ filters, mode: 'category_select',
      additionalComments: additionalComments.trim() || undefined }`. */
  function RequestBody(filters: Filters, comments: string): (r: SearchRequest)
    ensures r.query.None? && r.filters == Some(filters)
    ensures r.mode == Some(ModeName(CategorySelect))
    ensures r.additionalComments.None? <==> AllWhitespace(comments)
    ensures r.additionalComments.Some? ==> r.additionalComments.value == Trim(comments)
  {
    TrimEmptyIff(comments);
    var trimmed := Trim(comments);
    SearchRequest(None, Some(filters), Some("category_select"), if trimmed == "" then None else Some(trimmed))
  }

  /** A row of the search-history table as this page writes it. */
  datatype HistoryRow = HistoryRow(
    userId: string,
    searchQuery: Option<string>,
    searchMode: SearchMode,
    filters: Filters,
    ideaIds: seq<string>)

  /** `ideas.map(idea => idea.id)`. */
  function IdeaIds(ideas: seq<Idea>): (r: seq<string>)
    ensures |r| == |ideas|
    ensures forall i :: 0 <= i < |ideas| ==> r[i] == ideas[i].id
  {
    if ideas == [] then [] else [ideas[0].id] + IdeaIds(ideas[1..])
  }

  /** `saveToHistory(filters, ideas)`: no row without a signed-in user or
      without ideas; otherwise a category-select row with no query, the
      filters as selected and the ideas' ids in order. */
  function HistoryEntry(user: Option<string>, filters: Filters, ideas: seq<Idea>): (r: Option<HistoryRow>)
    ensures r.None? <==> user.None? || ideas == []
    ensures r.Some? ==> (r.value.userId == user.value && r.value.searchQuery.None? &&
                         r.value.searchMode == CategorySelect && r.value.filters == filters)
    ensures r.Some? ==> (|r.value.ideaIds| == |ideas| &&
                         forall i :: 0 <= i < |ideas| ==> r.value.ideaIds[i] == ideas[i].id)
  {
    if user.None? || ideas == [] then None
    else Some(HistoryRow(user.value, None, CategorySelect, filters, IdeaIds(ideas)))
  }

  /** The page's state. */
  class CategorySearchPage {
    var filters: Filters
    var additionalComments: string
    var loading: bool

    constructor ()
      ensures filters == map[] && additionalComments == "" && !loading
    {
      filters := map[];
      additionalComments := "";
      loading := false;
    }

    /** The same toggle as the selector component. */
    method HandleCategorySelect(c: Category, v: string)
      modifies this
      ensures filters == Toggle(old(filters), c, v)
      ensures additionalComments == old(additionalComments) && loading == old(loading)
    {
      filters := Toggle(filters, c, v);
    }

    method SetAdditionalComments(text: string)
      modifies this
      ensures additionalComments == text
      ensures filters == old(filters) && loading == old(loading)
    {
      additionalComments := text;
    }

    /** The Generate button is disabled while loading or with no filter set. */
    predicate GenerateDisabled()
      reads this
      ensures GenerateDisabled() <==> loading || forall c :: c !in filters
    {
      loading || !HasFilters(filters)
    }

    /** `handleSubmit`, with the outcome of the request passed in:
        `generated` is None when the request failed, and otherwise the
        ideas it returned; `user` is the signed-in user, if any. Returns
        the request body sent, the history row written (if any) and the
        ideas handed on to the dashboard (if any). `loading` is false
        again afterwards whatever the outcome. */
    method HandleSubmit(generated: Option<seq<Idea>>, user: Option<string>)
      returns (request: SearchRequest, row: Option<HistoryRow>, handedOn: Option<seq<Idea>>)
      modifies this
      ensures request == RequestBody(old(filters), old(additionalComments))
      ensures generated.None? ==> row.None? && handedOn.None?
      ensures generated.Some? ==>
                (row == HistoryEntry(user, old(filters), generated.value) && handedOn == generated)
      ensures !loading
      ensures filters == old(filters) && additionalComments == old(additionalComments)
    {
      loading := true;
      request := RequestBody(filters, additionalComments);
      if generated.None? {
        row := None;
        handedOn := None;
      } else {
        row := HistoryEntry(user, filters, generated.value);
        handedOn := generated;
      }
      loading := false;
    }
  }
}
