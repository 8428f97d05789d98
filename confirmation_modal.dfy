/** The search confirmation modal: the ordered summary of what a search
    asks for, and what the modal shows (nothing when closed, the summary,
    or the no-criteria message). `t` is the translation function of the
    active language. */
module ConfirmationModal {
  import opened Types
  import opened Text

  /** The labels of the summary lines. */
  datatype Label = SearchQueryLabel | TechnologyLabel | CategoryLabel
                 | MonetizationLabel | TargetAudienceLabel | CommentsLabel

  /** The translation key of each label. */
  function LabelKey(l: Label): string {
    match l
    case SearchQueryLabel => "confirmModal.searchQuery"
    case TechnologyLabel => "confirmModal.technology"
    case CategoryLabel => "confirmModal.category"
    case MonetizationLabel => "confirmModal.monetization"
    case TargetAudienceLabel => "confirmModal.targetAudience"
    case CommentsLabel => "confirmModal.additionalComments"
  }

  /** A summary line `label: value`. */
  function Labelled(t: string -> string, tag: Label, value: string): string {
    t(LabelKey(tag)) + ": " + value
  }

  /** A summary line `label: "value"`. */
  function Quoted(t: string -> string, tag: Label, value: string): string {
    t(LabelKey(tag)) + ": \"" + value + "\""
  }

  /** The line of one filter category: present only when the category
      holds a non-empty value. */
  function FilterLine(t: string -> string, f: Filters, c: Category, tag: Label): seq<string> {
    if c in f && f[c] != "" then [Labelled(t, tag, f[c])] else []
  }

  /** The query line: present only for a free-text search with a non-empty
      query. */
  function QueryPart(t: string -> string, mode: SearchMode, query: Option<string>): seq<string> {
    if mode == FreeText && Truthy(query) then [Quoted(t, SearchQueryLabel, query.value)] else []
  }

  /** The filter lines in the order technology, context, monetization,
      target audience. */
  function FilterParts(t: string -> string, filters: Option<Filters>): seq<string> {
    if filters.None? then []
    else
      var f := filters.value;
      FilterLine(t, f, Technology, TechnologyLabel) +
      FilterLine(t, f, Context, CategoryLabel) +
      FilterLine(t, f, Monetization, MonetizationLabel) +
      FilterLine(t, f, TargetAudience, TargetAudienceLabel)
  }

  /** The comments line: present only for non-empty comments. */
  function CommentsPart(t: string -> string, comments: Option<string>): seq<string> {
    if Truthy(comments) then [Quoted(t, CommentsLabel, comments.value)] else []
  }

  /** The summary: the query line, then the filter lines, then the
      comments line. */
  function Summary(t: string -> string, mode: SearchMode, query: Option<string>,
                   filters: Option<Filters>, comments: Option<string>): seq<string>
  {
    QueryPart(t, mode, query) + FilterParts(t, filters) + CommentsPart(t, comments)
  }

  /** One conditional push of `buildSummary()`: appends the line of
      category `c` when it holds a non-empty value. */
  method PushFilterLine(t: string -> string, parts: seq<string>, f: Filters, c: Category, tag: Label)
    returns (r: seq<string>)
    ensures r == parts + FilterLine(t, f, c, tag)
  {
    r := parts;
    if c in f && f[c] != "" {
      r := r + [Labelled(t, tag, f[c])];
    }
  }

  /** The `if (filters)` block of `buildSummary()`: the four
      conditional pushes, in order. */
  method PushFilterLines(t: string -> string, parts: seq<string>, filters: Option<Filters>)
    returns (r: seq<string>)
    ensures r == parts + FilterParts(t, filters)
  {
    r := parts;
    if filters.Some? {
      var f := filters.value;
      ghost var a := FilterLine(t, f, Technology, TechnologyLabel);
      ghost var b := FilterLine(t, f, Context, CategoryLabel);
      ghost var c := FilterLine(t, f, Monetization, MonetizationLabel);
      ghost var d := FilterLine(t, f, TargetAudience, TargetAudienceLabel);
      r := PushFilterLine(t, r, f, Technology, TechnologyLabel);
      r := PushFilterLine(t, r, f, Context, CategoryLabel);
      r := PushFilterLine(t, r, f, Monetization, MonetizationLabel);
      r := PushFilterLine(t, r, f, TargetAudience, TargetAudienceLabel);
      AppendAssoc(parts, a, b);
      AppendAssoc(parts, a + b, c);
      AppendAssoc(parts, a + b + c, d);
    }
  }

  /** `buildSummary()`: the query line, the filter lines and the comments
      line, pushed in that order. */
  method BuildSummary(t: string -> string, mode: SearchMode, query: Option<string>,
                      filters: Option<Filters>, comments: Option<string>) returns (parts: seq<string>)
    ensures parts == Summary(t, mode, query, filters, comments)
  {
    parts := [];
    if mode == FreeText && Truthy(query) {
      parts := parts + [Quoted(t, SearchQueryLabel, query.value)];
    }
    parts := PushFilterLines(t, parts, filters);
    if Truthy(comments) {
      parts := parts + [Quoted(t, CommentsLabel, comments.value)];
    }
  }

  /** Whether category `c` holds a value the summary shows. */
  predicate Shown(f: Filters, c: Category) {
    c in f && f[c] != ""
  }

  /** Whether the search asks for anything the summary can show: a
      free-text query, a value in one of the four summarised categories, or
      comments. */
  predicate HasCriteria(mode: SearchMode, query: Option<string>,
                        filters: Option<Filters>, comments: Option<string>)
  {
    (mode == FreeText && Truthy(query)) ||
    (filters.Some? && (Shown(filters.value, Technology) || Shown(filters.value, Context) ||
                       Shown(filters.value, Monetization) || Shown(filters.value, TargetAudience))) ||
    Truthy(comments)
  }

  /** The summary has one line per shown criterion, six at most, and is
      empty exactly when there is no criterion. */
  lemma SummaryShape(t: string -> string, mode: SearchMode, query: Option<string>,
                     filters: Option<Filters>, comments: Option<string>)
    ensures |Summary(t, mode, query, filters, comments)| <= 6
    ensures Summary(t, mode, query, filters, comments) == [] <==> !HasCriteria(mode, query, filters, comments)
  {
  }

  /** A free-text query, when shown, is the first line; comments, when
      shown, are the last line. */
  lemma SummaryOrder(t: string -> string, mode: SearchMode, query: Option<string>,
                     filters: Option<Filters>, comments: Option<string>)
    ensures var s := Summary(t, mode, query, filters, comments);
      (mode == FreeText && Truthy(query) ==> s[0] == Quoted(t, SearchQueryLabel, query.value)) &&
      (Truthy(comments) ==> s[|s| - 1] == Quoted(t, CommentsLabel, comments.value))
  {
  }

  /** A category search never shows a query line, whatever query it
      carries. */
  lemma CategorySearchHasNoQueryLine(t: string -> string, query: Option<string>,
                                     filters: Option<Filters>, comments: Option<string>)
    ensures Summary(t, CategorySelect, query, filters, comments)
      == Summary(t, CategorySelect, None, filters, comments)
  {
  }

  /** Complexity and time to build are never summarised: removing them
      from the filters leaves the summary unchanged. */
  lemma SummaryIgnoresComplexityAndTime(t: string -> string, mode: SearchMode, query: Option<string>,
                                        f: Filters, comments: Option<string>)
    ensures Summary(t, mode, query, Some(f), comments)
      == Summary(t, mode, query, Some(f - {Complexity, TimeToBuild}), comments)
  {
    var g := f - {Complexity, TimeToBuild};
    assert FilterLine(t, f, Technology, TechnologyLabel) == FilterLine(t, g, Technology, TechnologyLabel);
    assert FilterLine(t, f, Context, CategoryLabel) == FilterLine(t, g, Context, CategoryLabel);
    assert FilterLine(t, f, Monetization, MonetizationLabel) == FilterLine(t, g, Monetization, MonetizationLabel);
    assert FilterLine(t, f, TargetAudience, TargetAudienceLabel) == FilterLine(t, g, TargetAudience, TargetAudienceLabel);
  }

  /** What the modal renders. */
  datatype View = Closed | NoCriteria(message: string) | Bullets(parts: seq<string>)

  /** The modal renders nothing when closed; open, it lists the summary
      lines, or shows the no-criteria message when there are none. */
  function Render(isOpen: bool, t: string -> string, mode: SearchMode, query: Option<string>,
                  filters: Option<Filters>, comments: Option<string>): (v: View)
    ensures !isOpen <==> v == Closed
    ensures v.NoCriteria? <==> isOpen && !HasCriteria(mode, query, filters, comments)
    ensures v.NoCriteria? ==> v.message == t("confirmModal.noCriteria")
    ensures v.Bullets? ==> v.parts != [] && v.parts == Summary(t, mode, query, filters, comments)
  {
    if !isOpen then Closed
    else
      var parts := Summary(t, mode, query, filters, comments);
      SummaryShape(t, mode, query, filters, comments);
      if |parts| > 0 then Bullets(parts) else NoCriteria(t("confirmModal.noCriteria"))
  }
}
