/** The dashboard page: a search (free text or categories) asks the
    generation route for ideas and moves the page from `search` to
    `swiping`; completing the swipe stack saves the liked ideas and moves
    to `results`; New Search clears everything and returns to `search`.

    `Apply` is the specification of the three state fields; the class
    `DashboardPage` holds them and each handler is proved against it. */
module Dashboard {
  import opened Types
  import opened Text
  import Swipe
  import GenerateIdeas

  datatype ViewMode = SearchView | Swiping | Results

  /** What the call to the generation route gives: a failure (a reply that
      is not OK, or a network error), or the ideas of an OK reply. */
  datatype Generation = Failed | Generated(ideas: seq<Idea>)

  /** A row of the saved-ideas table: who saved which idea. */
  datatype SavedIdeaRecord = SavedIdeaRecord(userId: string, ideaId: string)

  /** The page state that decides what is shown. */
  datatype State = State(viewMode: ViewMode, ideas: seq<Idea>, savedIdeas: seq<Idea>)

  /** The events that change the page state. */
  datatype Event = Generation(outcome: Generation) | SwipeCompleted(liked: seq<Idea>) | NewSearch

  /** The state the page opens in. */
  const Initial: State := State(SearchView, [], [])

  /** The state after `e`: a successful generation shows the new ideas
      for swiping and a failed one changes nothing; a finished swipe stack
      keeps the ideas, records the liked ones and shows the results; New
      Search empties both lists and goes back to searching. */
  function Apply(s: State, e: Event): (r: State)
    ensures e.Generation? && e.outcome.Failed? ==> r == s
    ensures e.Generation? && e.outcome.Generated? ==>
      r.viewMode == Swiping && r.ideas == e.outcome.ideas && r.savedIdeas == s.savedIdeas
    ensures e.SwipeCompleted? ==>
      r.viewMode == Results && r.ideas == s.ideas && r.savedIdeas == e.liked
    ensures e.NewSearch? ==> r == Initial
  {
    match e
    case Generation(Failed) => s
    case Generation(Generated(xs)) => s.(viewMode := Swiping, ideas := xs)
    case SwipeCompleted(liked) => s.(viewMode := Results, savedIdeas := liked)
    case NewSearch => Initial
  }

  /** The swipe stack is rendered only in the swiping view, and only when
      there are ideas to show. */
  predicate SwipeViewShown(s: State) {
    s.viewMode == Swiping && |s.ideas| > 0
  }

  /** A full round: ideas generated, the stack finished, New Search taken,
      leaves the page exactly as it opened, from any state. */
  lemma {:induction false} RoundReturnsToInitial(s: State, xs: seq<Idea>, liked: seq<Idea>)
    ensures Apply(Apply(Apply(s, Generation(Generated(xs))), SwipeCompleted(liked)), NewSearch) == Initial
  {
  }

  /** After a successful generation the swipe stack shows exactly when the
      route returned ideas; nothing shows the stack from another view. */
  lemma SwipeViewAfterGeneration(s: State, g: Generation)
    ensures g.Generated? ==> (SwipeViewShown(Apply(s, Generation(g))) <==> g.ideas != [])
    ensures g.Failed? ==> (SwipeViewShown(Apply(s, Generation(g))) <==> SwipeViewShown(s))
    ensures !SwipeViewShown(Apply(s, NewSearch))
    ensures forall liked :: !SwipeViewShown(Apply(s, SwipeCompleted(liked)))
  {
  }

  /** The rows written for the liked ideas: one per idea, in order, each
      carrying the user's id and that idea's id. */
  function SavedIdeaRecords(userId: string, liked: seq<Idea>): (r: seq<SavedIdeaRecord>)
    ensures |r| == |liked|
    ensures forall i :: 0 <= i < |r| ==> r[i].userId == userId && r[i].ideaId == liked[i].id
  {
    seq(|liked|, i requires 0 <= i < |liked| => SavedIdeaRecord(userId, liked[i].id))
  }

  /** The ids of a list of ideas, in order. */
  function Ids(xs: seq<Idea>): (r: seq<string>)
    ensures |r| == |xs| && forall i :: 0 <= i < |xs| ==> r[i] == xs[i].id
  {
    seq(|xs|, i requires 0 <= i < |xs| => xs[i].id)
  }

  /** The records name exactly the liked ideas, in order. */
  lemma RecordIdsAreLikedIds(userId: string, liked: seq<Idea>)
    ensures Ids(liked) == seq(|liked|, i requires 0 <= i < |liked| => SavedIdeaRecords(userId, liked)[i].ideaId)
  {
  }

  /** The records written at the end of a full pass through a non-empty
      stack name the ideas swiped right, in the order they were shown, and
      only ideas of that stack. */
  lemma {:induction false} RecordsOfSwipeRun(userId: string, ideas: seq<Idea>, ds: seq<Swipe.Direction>)
    requires 0 < |ideas| == |ds|
    ensures Swipe.Run(ideas, ds).1 == [Swipe.Kept(ideas, ds)]
    ensures var records := SavedIdeaRecords(userId, Swipe.Kept(ideas, ds));
      |records| == Swipe.CountSaves(ds) &&
      (forall i :: 0 <= i < |records| ==> records[i].ideaId == Swipe.Kept(ideas, ds)[i].id) &&
      (forall i :: 0 <= i < |records| ==> exists j :: 0 <= j < |ideas| && records[i].ideaId == ideas[j].id)
  {
    Swipe.RunToEnd(ideas, ds);
    Swipe.KeptShape(ideas, ds);
    var kept := Swipe.Kept(ideas, ds);
    var records := SavedIdeaRecords(userId, kept);
    forall i | 0 <= i < |records| ensures exists j :: 0 <= j < |ideas| && records[i].ideaId == ideas[j].id {
      assert records[i].ideaId == kept[i].id;
      assert kept[i] in kept;
      var j :| 0 <= j < |ideas| && ideas[j] == kept[i];
      assert records[i].ideaId == ideas[j].id;
    }
    assert |records| == Swipe.CountSaves(ds);
    assert forall i :: 0 <= i < |records| ==> records[i].ideaId == kept[i].id;
  }

  /** The request body of a free-text search. */
  function FreeTextRequest(query: string): SearchRequest {
    SearchRequest(Some(query), None, Some("free_text"), None)
  }

  /** The request body of a category search. */
  function CategoryRequest(filters: Filters): SearchRequest {
    SearchRequest(None, Some(filters), Some("category_select"), None)
  }

  /** Both requests the dashboard sends pass the route's guards once the
      route is configured and the user signed in: the search bar only
      sends a non-empty query, and a category search always carries a
      filter object. A free-text query is described in the prompt. */
  lemma RequestsPassRouteGuards(apiKey: Option<string>, userId: string, query: string, filters: Filters)
    requires Truthy(apiKey)
    ensures query != "" ==> GenerateIdeas.Guard(apiKey, Some(userId), Some(FreeTextRequest(query))).None?
    ensures query != "" ==>
      GenerateIdeas.DescriptionPart(FreeTextRequest(query)) == GenerateIdeas.DescriptionLine(query)
    ensures GenerateIdeas.Guard(apiKey, Some(userId), Some(CategoryRequest(filters))).None?
    ensures GenerateIdeas.DescriptionPart(CategoryRequest(filters)) == ""
  {
  }

  /** The success toast of a save: "Saved <n> idea(s)!". */
  function SavedToast(n: nat): (r: Toast)
    ensures r.SuccessToast? && |r.text| > 15
    ensures r.text[..6] == "Saved " && r.text[|r.text| - 9..] == " idea(s)!"
    ensures var digits := r.text[6..|r.text| - 9];
      (forall i :: 0 <= i < |digits| ==> '0' <= digits[i] <= '9') && DecimalValue(digits) == n
  {
    var digits := NatToString(n);
    var text := "Saved " + digits + " idea(s)!";
    assert text[6..|text| - 9] == digits;
    NatToStringRoundTrip(n);
    SuccessToast(text)
  }

  /** The page's component state. `loadingTrace` records every value the
      `loading` flag is set to, in order. */
  class DashboardPage {
    var viewMode: ViewMode
    var ideas: seq<Idea>
    var savedIdeas: seq<Idea>
    var loading: bool
    ghost var loadingTrace: seq<bool>

    function Current(): State
      reads this
    {
      State(viewMode, ideas, savedIdeas)
    }

    constructor ()
      ensures Current() == Initial && !loading && loadingTrace == []
    {
      viewMode := SearchView;
      ideas := [];
      savedIdeas := [];
      loading := false;
      loadingTrace := [];
    }

    method SetLoading(value: bool)
      modifies this
      ensures loading == value && loadingTrace == old(loadingTrace) + [value]
      ensures Current() == old(Current())
    {
      loading := value;
      loadingTrace := loadingTrace + [value];
    }

    /** The part both search handlers share: `loading` is raised for the
        call and lowered afterwards whatever the outcome. */
    method Generate(outcome: Generation) returns (toast: Toast)
      modifies this
      ensures Current() == Apply(old(Current()), Generation(outcome))
      ensures !loading && loadingTrace == old(loadingTrace) + [true, false]
      ensures toast == if outcome.Failed? then ErrorToast("Failed to generate ideas. Please try again.")
                       else SuccessToast("Ideas generated!")
    {
      SetLoading(true);
      match outcome {
        case Failed =>
          toast := ErrorToast("Failed to generate ideas. Please try again.");
        case Generated(xs) =>
          ideas := xs;
          viewMode := Swiping;
          toast := SuccessToast("Ideas generated!");
      }
      SetLoading(false);
    }

    /** A free-text search: sends the query in free-text mode. */
    method HandleSearch(query: string, outcome: Generation) returns (request: SearchRequest, toast: Toast)
      modifies this
      ensures request == FreeTextRequest(query)
      ensures Current() == Apply(old(Current()), Generation(outcome))
      ensures !loading && loadingTrace == old(loadingTrace) + [true, false]
      ensures toast.SuccessToast? <==> outcome.Generated?
    {
      request := FreeTextRequest(query);
      toast := Generate(outcome);
    }

    /** A category search: sends the filters in category mode. */
    method HandleCategorySubmit(filters: Filters, outcome: Generation) returns (request: SearchRequest, toast: Toast)
      modifies this
      ensures request == CategoryRequest(filters)
      ensures Current() == Apply(old(Current()), Generation(outcome))
      ensures !loading && loadingTrace == old(loadingTrace) + [true, false]
      ensures toast.SuccessToast? <==> outcome.Generated?
    {
      request := CategoryRequest(filters);
      toast := Generate(outcome);
    }

    /** The swipe stack is done with the liked ideas `liked`. `user` is the
        signed-in user's id, if any; `insertThrows` tells whether the write
        of the records throws. The rows written are returned; the page
        moves to the results whatever happens to them. */
    method HandleSwipeComplete(liked: seq<Idea>, user: Option<string>, insertThrows: bool)
      returns (written: seq<SavedIdeaRecord>, toast: Option<Toast>)
      modifies this
      ensures Current() == Apply(old(Current()), SwipeCompleted(liked))
      ensures loading == old(loading) && loadingTrace == old(loadingTrace)
      ensures written == if liked != [] && user.Some? then SavedIdeaRecords(user.value, liked) else []
      ensures written == [] <==> liked == [] || user.None?
      ensures toast.Some? <==> written != [] && !insertThrows
      ensures toast.Some? ==> toast.value == SavedToast(|liked|)
    {
      savedIdeas := liked;
      written := [];
      toast := None;
      if |liked| > 0 {
        if user.Some? {
          written := SavedIdeaRecords(user.value, liked);
          if !insertThrows {
            toast := Some(SavedToast(|liked|));
          }
        }
      }
      viewMode := Results;
    }

    /** New Search: both lists are emptied and the search view returns. */
    method HandleNewSearch()
      modifies this
      ensures Current() == Apply(old(Current()), NewSearch)
      ensures loading == old(loading) && loadingTrace == old(loadingTrace)
    {
      ideas := [];
      savedIdeas := [];
      viewMode := SearchView;
    }

    /** Whether the swipe stack is rendered now. */
    predicate ShowsSwipeView()
      reads this
    {
      SwipeViewShown(Current())
    }
  }
}
