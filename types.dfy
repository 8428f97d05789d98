/** The data shapes the application passes around: an idea record, the
    category filters and the two search modes. */
module Types {

  datatype Option<T> = None | Some(value: T)

  /** The two ways a search is made: free text or category selection. */
  datatype SearchMode = FreeText | CategorySelect

  /** The wire name of a search mode, as stored and as sent in requests. */
  function ModeName(m: SearchMode): (r: string)
    ensures r == "free_text" || r == "category_select"
    ensures (r == "free_text") <==> m == FreeText
  {
    match m
    case FreeText => "free_text"
    case CategorySelect => "category_select"
  }

  /** An idea record as the database returns it. The optional text fields
      are Options; the optional lists of steps, stack and suggestions are
      not used by any rule modelled here and are omitted. */
  datatype Idea = Idea(
    id: string,
    userId: string,
    title: string,
    description: string,
    technology: Option<string>,
    complexity: Option<string>,
    timeToBuild: Option<string>,
    monetization: Option<string>,
    targetAudience: Option<string>,
    searchQuery: Option<string>,
    searchMode: Option<SearchMode>,
    createdAt: string,
    updatedAt: string)

  /** The keys of a category-filter object. `Context` is used by the
      category-search page and the confirmation modal. */
  datatype Category = Technology | Complexity | TimeToBuild | Monetization | TargetAudience | Context

  /** A category-filter object: a category holds at most one value; a key
      that is absent (or holds `undefined`) is unset. */
  type Filters = map<Category, string>

  /** JavaScript truthiness of an optional string: present and non-empty. */
  predicate Truthy(s: Option<string>) {
    s.Some? && s.value != ""
  }

  /** The value of a filter key if the filter object is present, else
      absent (`filters?.key`). */
  function FilterValue(filters: Option<Filters>, c: Category): (r: Option<string>)
    ensures r.Some? <==> filters.Some? && c in filters.value
    ensures r.Some? ==> r.value == filters.value[c]
  {
    if filters.Some? && c in filters.value then Some(filters.value[c]) else None
  }

  /** `value || null`: a truthy string is kept, anything else becomes null. */
  function OrNull(s: Option<string>): (r: Option<string>)
    ensures r.Some? <==> Truthy(s)
    ensures r.Some? ==> r == s
  {
    if Truthy(s) then s else None
  }

  /** The JSON body of a generation request, as the route reads it: each
      field may be absent. `mode` is whatever string the client sent. */
  datatype SearchRequest = SearchRequest(
    query: Option<string>,
    filters: Option<Filters>,
    mode: Option<string>,
    additionalComments: Option<string>)

  /** A toast notification shown to the user. */
  datatype Toast = ErrorToast(text: string) | SuccessToast(text: string)
}
