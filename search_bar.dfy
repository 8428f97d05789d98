/** The free-text search bar: it keeps the typed query, hands the trimmed
    query to the search callback on submit, and refuses to submit a query
    that is empty once trimmed. */
module SearchBar {
  import opened Types
  import opened Text

  class SearchBar {
    /** The text in the input, exactly as typed. */
    var query: string

    constructor ()
      ensures query == ""
    {
      query := "";
    }

    /** Typing into the input replaces the stored text. */
    method SetQuery(value: string)
      modifies this
      ensures query == value
    {
      query := value;
    }

    /** Whether the submit button is disabled: while a search is loading,
        or while the query is nothing but whitespace. */
    predicate SubmitDisabled(loading: bool)
      reads this
      ensures SubmitDisabled(loading) <==> loading || AllWhitespace(query)
    {
      TrimEmptyIff(query);
      loading || Trim(query) == ""
    }

    /** The query the search callback receives on submit, or None when the
        callback is not called. The stored text is left as typed. */
    method HandleSubmit() returns (sent: Option<string>)
      ensures sent.None? <==> AllWhitespace(query)
      ensures sent.Some? ==> sent.value == Trim(query) && sent.value != ""
      ensures sent.Some? ==> !IsJsWhitespace(sent.value[0]) && !IsJsWhitespace(sent.value[|sent.value| - 1])
      ensures sent.Some? ==> Trim(sent.value) == sent.value
    {
      TrimEmptyIff(query);
      var trimmed := Trim(query);
      if trimmed != "" {
        TrimIdempotent(query);
        sent := Some(trimmed);
      } else {
        sent := None;
      }
    }

    /** The button and the handler agree: when no search is loading, the
        button is enabled exactly for the queries the handler sends on. */
    lemma SubmitGateAgrees()
      ensures !SubmitDisabled(false) <==> !AllWhitespace(query)
      ensures SubmitDisabled(true)
    {
      TrimEmptyIff(query);
    }
  }
}
