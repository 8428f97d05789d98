/** The search-history page: relative-time labels, search labels, the
    preview of each entry's ideas, deletion by id and the guard on viewing
    an entry's results. */
module History {
  import opened Types
  import opened Text

  /** A history entry as the page holds it. `filters` is the stored filter
      object as its (key, value) entries in key order, each value a string
      or None for `null`; `ideas` are the fetched ideas. */
  datatype HistoryItem = HistoryItem(
    id: string,
    searchQuery: Option<string>,
    searchMode: SearchMode,
    filters: Option<seq<(string, Option<string>)>>,
    ideaIds: seq<string>,
    ideas: seq<Idea>)

  const MinuteMs: int := 60000
  const HourMs: int := 3600000
  const DayMs: int := 86400000

  /** `formatDate` for an entry `diffMs` milliseconds old: whole minutes
      under an hour, whole hours under a day, whole days under a week,
      each rounded down; None stands for the locale date string used
      beyond a week. */
  function FormatDate(diffMs: int): (r: Option<string>)
    ensures diffMs < HourMs ==> r == Some(IntToString(diffMs / MinuteMs) + "m ago")
    ensures HourMs <= diffMs < DayMs ==>
      1 <= diffMs / HourMs < 24 && r == Some(NatToString(diffMs / HourMs) + "h ago")
    ensures DayMs <= diffMs < 7 * DayMs ==>
      1 <= diffMs / DayMs < 7 && r == Some(NatToString(diffMs / DayMs) + "d ago")
    ensures diffMs >= 7 * DayMs ==> r.None?
  {
    var diffMins := diffMs / MinuteMs;
    var diffHours := diffMs / HourMs;
    var diffDays := diffMs / DayMs;
    if diffMins < 60 then Some(IntToString(diffMins) + "m ago")
    else if diffHours < 24 then Some(IntToString(diffHours) + "h ago")
    else if diffDays < 7 then Some(IntToString(diffDays) + "d ago")
    else None
  }

  /** An entry at most an hour old shows between 0 and 59 minutes. */
  lemma MinutesInRange(diffMs: int)
    requires 0 <= diffMs < HourMs
    ensures 0 <= diffMs / MinuteMs < 60
    ensures FormatDate(diffMs) == Some(NatToString(diffMs / MinuteMs) + "m ago")
  {
  }

  /** The truthy values of the filter entries, in key order. */
  function TruthyValues(entries: seq<(string, Option<string>)>): (r: seq<string>)
    ensures |r| <= |entries|
    ensures forall i :: 0 <= i < |r| ==> r[i] != ""
    ensures forall v :: v in r <==> exists k :: (k, Some(v)) in entries && v != ""
  {
    if entries == [] then []
    else
      var rest := TruthyValues(entries[1..]);
      assert forall e :: e in entries <==> e == entries[0] || e in entries[1..];
      if Truthy(entries[0].1) then [entries[0].1.value] + rest else rest
  }

  /** One entry contributes its value exactly when that value is truthy. */
  lemma TruthyValuesSingle(e: (string, Option<string>))
    ensures TruthyValues([e]) == if Truthy(e.1) then [e.1.value] else []
  {
  }

  /** The values come in entry order, one per truthy entry, duplicates
      included: the values of a concatenation are the values of its parts,
      concatenated. */
  lemma {:induction false} TruthyValuesAppend(a: seq<(string, Option<string>)>, b: seq<(string, Option<string>)>)
    ensures TruthyValues(a + b) == TruthyValues(a) + TruthyValues(b)
    decreases |a|
  {
    if a == [] {
      assert a + b == b;
    } else {
      assert (a + b)[1..] == a[1..] + b;
      TruthyValuesAppend(a[1..], b);
    }
  }

  /** `getSearchLabel(item)`. */
  function SearchLabel(item: HistoryItem): (r: string)
    ensures item.searchMode == FreeText ==>
      r == if Truthy(item.searchQuery) then item.searchQuery.value else "Text search"
    ensures item.searchMode == CategorySelect && item.filters.Some? && TruthyValues(item.filters.value) != [] ==>
      r == Truncate(Join(TruthyValues(item.filters.value), ", "), 50) && |r| <= 53
    ensures item.searchMode == CategorySelect && (item.filters.None? || TruthyValues(item.filters.value) == []) ==>
      r == "Category search"
  {
    if item.searchMode == FreeText then
      if Truthy(item.searchQuery) then item.searchQuery.value else "Text search"
    else if item.filters.Some? && TruthyValues(item.filters.value) != [] then
      Truncate(Join(TruthyValues(item.filters.value), ", "), 50)
    else "Category search"
  }

  /** Joining non-empty strings gives a non-empty string. */
  lemma {:induction false} JoinNonEmpty(parts: seq<string>, sep: string)
    requires parts != [] && forall i :: 0 <= i < |parts| ==> parts[i] != ""
    ensures Join(parts, sep) != ""
  {
    if |parts| > 1 {
      assert |Join(parts, sep)| >= |parts[0]|;
    }
  }

  /** Every entry gets a non-empty label. */
  lemma LabelNonEmpty(item: HistoryItem)
    ensures SearchLabel(item) != ""
  {
    if item.searchMode == CategorySelect && item.filters.Some? && TruthyValues(item.filters.value) != [] {
      JoinNonEmpty(TruthyValues(item.filters.value), ", ");
    }
  }

  /** The idea chips under an entry: the first three titles, each cut to 30
      characters plus "..." when longer, and a "+k more" note for the rest. */
  datatype Preview = Preview(titles: seq<string>, more: Option<string>)

  function PreviewTitles(ideas: seq<Idea>): (r: seq<string>)
    requires |ideas| <= 3
    ensures |r| == |ideas|
    ensures forall i :: 0 <= i < |r| ==> r[i] == Truncate(ideas[i].title, 30) && |r[i]| <= 33
  {
    if ideas == [] then [] else [Truncate(ideas[0].title, 30)] + PreviewTitles(ideas[1..])
  }

  /** None when the entry has no ideas (nothing is rendered). */
  function PreviewOf(ideas: seq<Idea>): (r: Option<Preview>)
    ensures r.None? <==> ideas == []
    ensures r.Some? ==> |r.value.titles| == if |ideas| < 3 then |ideas| else 3
    ensures r.Some? ==> forall i :: 0 <= i < |r.value.titles| ==>
      r.value.titles[i] == Truncate(ideas[i].title, 30)
    ensures r.Some? ==> (r.value.more.Some? <==> |ideas| > 3)
    ensures r.Some? && |ideas| > 3 ==> r.value.more == Some("+" + NatToString(|ideas| - 3) + " more")
  {
    if ideas == [] then None
    else
      var shown := if |ideas| < 3 then ideas else ideas[..3];
      Some(Preview(PreviewTitles(shown),
        if |ideas| > 3 then Some("+" + NatToString(|ideas| - 3) + " more") else None))
  }

  /** `prev.filter(item => item.id !== id)`. */
  function RemoveById(h: seq<HistoryItem>, id: string): (r: seq<HistoryItem>)
    ensures |r| <= |h|
    ensures forall x :: x in r <==> x in h && x.id != id
  {
    if h == [] then []
    else
      assert forall x :: x in h <==> x == h[0] || x in h[1..];
      (if h[0].id == id then [] else [h[0]]) + RemoveById(h[1..], id)
  }

  /** Removal keeps the order of what remains: it distributes over
      concatenation. */
  lemma {:induction false} RemoveByIdAppend(a: seq<HistoryItem>, b: seq<HistoryItem>, id: string)
    ensures RemoveById(a + b, id) == RemoveById(a, id) + RemoveById(b, id)
    decreases |a|
  {
    if a != [] {
      assert (a + b)[0] == a[0] && (a + b)[1..] == a[1..] + b;
      RemoveByIdAppend(a[1..], b, id);
    } else {
      assert a + b == b;
    }
  }

  /** The number of entries carrying `id`. */
  function CountId(h: seq<HistoryItem>, id: string): nat {
    if h == [] then 0 else (if h[0].id == id then 1 else 0) + CountId(h[1..], id)
  }

  /** Exactly the entries with the id are removed. */
  lemma {:induction false} RemoveByIdCount(h: seq<HistoryItem>, id: string)
    ensures |RemoveById(h, id)| == |h| - CountId(h, id)
  {
    if h != [] {
      RemoveByIdCount(h[1..], id);
    }
  }

  /** Deleting twice is deleting once. */
  lemma {:induction false} RemoveByIdIdempotent(h: seq<HistoryItem>, id: string)
    ensures RemoveById(RemoveById(h, id), id) == RemoveById(h, id)
  {
    if h != [] {
      RemoveByIdIdempotent(h[1..], id);
      RemoveByIdAppend(if h[0].id == id then [] else [h[0]], RemoveById(h[1..], id), id);
    }
  }

  /** `handleViewSearch(item)`: the ideas handed to the dashboard, only
      when the entry has at least one. */
  function ViewSearch(item: HistoryItem): (r: Option<seq<Idea>>)
    ensures r.Some? <==> |item.ideas| > 0
    ensures r.Some? ==> r.value == item.ideas
  {
    if |item.ideas| > 0 then Some(item.ideas) else None
  }

  /** The page's list of entries. */
  class HistoryPage {
    var history: seq<HistoryItem>

    constructor (entries: seq<HistoryItem>)
      ensures history == entries
    {
      history := entries;
    }

    /** `handleDeleteSearch(id)`, with the outcome of the database delete
        passed in: only a successful delete filters the list. */
    method HandleDeleteSearch(id: string, deleted: bool)
      modifies this
      ensures deleted ==> history == RemoveById(old(history), id)
      ensures !deleted ==> history == old(history)
    {
      if deleted {
        history := RemoveById(history, id);
      }
    }
  }
}
