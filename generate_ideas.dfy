/** The idea-generation endpoint: the ordered guards (missing AI key,
    no signed-in user, unreadable body, neither query nor filters), the
    prompt built line by line, the clean-up of code fences around the AI
    text, the check that the parsed reply is a non-empty array, and the
    records stored for its first ten ideas.

    The AI call, `JSON.parse` and the database insert are parameters:
    `generate` gives the AI text for a prompt (None when the call throws),
    `parse` gives what `JSON.parse` makes of a text, and `insert` gives the
    stored rows for the records (None when the database reports an error). */
module GenerateIdeas {
  import opened Types
  import opened Text

  /** The opening of every prompt. */
  const PromptHeader: string :=
    "You are an expert product manager and startup advisor. Generate 10 unique and innovative app ideas based on the following criteria:\n\n"

  /** The closing instructions of every prompt, line by line. */
  const FooterLines: seq<string> := [
    "For each idea, provide:",
    "1. A catchy title (max 60 characters)",
    "2. A brief description (2-3 sentences, max 150 characters)",
    "",
    "Return the response as a valid JSON array with exactly 10 objects, each having 'title' and 'description' fields.",
    "Example format:",
    "[",
    "  {",
    "    \"title\": \"Example App Idea\",",
    "    \"description\": \"A brief description of the app idea that explains the core concept and value proposition.\"",
    "  }",
    "]",
    "",
    "Make sure the ideas are:",
    "- Practical and implementable",
    "- Innovative but realistic",
    "- Aligned with current market trends",
    "- Valuable to users",
    "",
    "Return ONLY the JSON array, no additional text or formatting."]

  /** The closing instructions, after an empty line. */
  const PromptFooter: string := "\n" + Join(FooterLines, "\n")

  /** The line that carries a free-text description. */
  function DescriptionLine(query: string): string {
    "User's description: " + query + "\n\n"
  }

  /** The description line: present only for a free-text request with a
      non-empty query. */
  function DescriptionPart(req: SearchRequest): string {
    if req.mode == Some("free_text") && Truthy(req.query) then DescriptionLine(req.query.value) else ""
  }

  /** The label that opens the prompt line of a filter; the context
      filter has no prompt line. */
  function PromptLabel(c: Category): string
    requires c != Context
  {
    match c
    case Technology => "- Technology/Platform: "
    case Complexity => "- Complexity Level: "
    case TimeToBuild => "- Time to Build: "
    case Monetization => "- Monetization: "
    case TargetAudience => "- Target Audience: "
  }

  /** The line of one filter: present only when the filter holds a
      non-empty value. */
  function PromptLine(f: Filters, c: Category): string
    requires c != Context
  {
    if c in f && f[c] != "" then PromptLabel(c) + f[c] + "\n" else ""
  }

  const FiltersHeading: string := "Filters:\n"

  /** The filter block: nothing without a filter object; otherwise the
      heading and then the lines of technology, complexity, time to build,
      monetization and target audience, in that order. */
  function FiltersPart(filters: Option<Filters>): string {
    if filters.None? then ""
    else
      var f := filters.value;
      FiltersHeading +
      PromptLine(f, Technology) +
      PromptLine(f, Complexity) +
      PromptLine(f, TimeToBuild) +
      PromptLine(f, Monetization) +
      PromptLine(f, TargetAudience)
  }

  /** The prompt for a request between a given opening and closing. */
  function PromptFrom(header: string, footer: string, req: SearchRequest): string {
    header + DescriptionPart(req) + FiltersPart(req.filters) + footer
  }

  /** The prompt sent to the AI for a request. */
  function Prompt(req: SearchRequest): string {
    PromptFrom(PromptHeader, PromptFooter, req)
  }

  /** One conditional `prompt +=` of the filter block. */
  method AppendPromptLine(prompt: string, f: Filters, c: Category) returns (r: string)
    requires c != Context
    ensures r == prompt + PromptLine(f, c)
  {
    r := prompt;
    if c in f && f[c] != "" {
      r := r + (PromptLabel(c) + f[c] + "\n");
    }
  }

  /** The `if (filters)` block of the prompt builder. */
  method AppendFilters(prompt: string, filters: Option<Filters>) returns (r: string)
    ensures r == prompt + FiltersPart(filters)
  {
    r := prompt;
    if filters.Some? {
      var f := filters.value;
      r := r + FiltersHeading;
      ghost var a := PromptLine(f, Technology);
      ghost var b := PromptLine(f, Complexity);
      ghost var c := PromptLine(f, TimeToBuild);
      ghost var d := PromptLine(f, Monetization);
      ghost var e := PromptLine(f, TargetAudience);
      r := AppendPromptLine(r, f, Technology);
      r := AppendPromptLine(r, f, Complexity);
      r := AppendPromptLine(r, f, TimeToBuild);
      r := AppendPromptLine(r, f, Monetization);
      r := AppendPromptLine(r, f, TargetAudience);
      AppendAssoc(prompt, FiltersHeading, a);
      AppendAssoc(prompt, FiltersHeading + a, b);
      AppendAssoc(prompt, FiltersHeading + a + b, c);
      AppendAssoc(prompt, FiltersHeading + a + b + c, d);
      AppendAssoc(prompt, FiltersHeading + a + b + c + d, e);
    }
  }

  /** The prompt builder: the header, the description line, the filter
      block and the footer, appended in that order. */
  method BuildPrompt(req: SearchRequest) returns (prompt: string)
    ensures prompt == Prompt(req)
  {
    prompt := PromptHeader;
    if req.mode == Some("free_text") && Truthy(req.query) {
      prompt := prompt + DescriptionLine(req.query.value);
    } else {
      assert prompt == PromptHeader + DescriptionPart(req);
    }
    ghost var described := prompt;
    prompt := AppendFilters(prompt, req.filters);
    ghost var filtered := prompt;
    prompt := prompt + PromptFooter;
    assert described == PromptHeader + DescriptionPart(req);
    assert filtered == described + FiltersPart(req.filters);
  }

  /** `x` also occurs, at the same place, after something is appended. */
  lemma OccursExtend(s: string, x: string, i: nat, more: string)
    requires OccursAt(s, x, i)
    ensures OccursAt(s + more, x, i)
  {
    assert (s + more)[i..i + |x|] == s[i..i + |x|];
  }

  /** The last piece of a concatenation occurs at the end of it. */
  lemma OccursAtEnd(s: string, x: string)
    ensures OccursAt(s + x, x, |s|)
  {
    assert (s + x)[|s|..|s| + |x|] == x;
  }

  /** The prompt opens with the header and closes with the footer. */
  lemma {:induction false} PromptFrame(header: string, footer: string, req: SearchRequest)
    ensures var p := PromptFrom(header, footer, req);
      OccursAt(p, header, 0) && OccursAt(p, footer, |p| - |footer|)
  {
    var body := DescriptionPart(req) + FiltersPart(req.filters);
    AppendAssoc(header, DescriptionPart(req), FiltersPart(req.filters));
    AppendAssoc(header, body, footer);
    assert (header + (body + footer))[..|header|] == header;
    OccursAtEnd(header + body, footer);
  }

  /** The description line follows the header when the request is a
      free-text one with a non-empty query. */
  lemma {:induction false} DescriptionAfterHeader(header: string, footer: string, req: SearchRequest)
    requires req.mode == Some("free_text") && Truthy(req.query)
    ensures OccursAt(PromptFrom(header, footer, req), DescriptionLine(req.query.value), |header|)
  {
    var d := DescriptionLine(req.query.value);
    OccursAtEnd(header, d);
    OccursExtend(header + d, d, |header|, FiltersPart(req.filters));
    OccursExtend(header + d + FiltersPart(req.filters), d, |header|, footer);
  }

  /** In a concatenation of six pieces, each piece occurs right after
      the ones before it. */
  lemma {:induction false} SixPieces(s0: string, t: string, c: string, b: string, m: string, a: string)
    ensures var block := s0 + t + c + b + m + a;
      var p := |s0|;
      OccursAt(block, s0, 0) &&
      OccursAt(block, t, p) &&
      OccursAt(block, c, p + |t|) &&
      OccursAt(block, b, p + |t| + |c|) &&
      OccursAt(block, m, p + |t| + |c| + |b|) &&
      OccursAt(block, a, p + |t| + |c| + |b| + |m|)
  {
    var s1 := s0 + t;
    var s2 := s1 + c;
    var s3 := s2 + b;
    var s4 := s3 + m;
    OccursAtEnd([], s0);
    OccursAtEnd(s0, t);
    OccursAtEnd(s1, c);
    OccursAtEnd(s2, b);
    OccursAtEnd(s3, m);
    OccursAtEnd(s4, a);
    OccursExtend(s0, s0, 0, t);
    OccursExtend(s1, s0, 0, c);
    OccursExtend(s2, s0, 0, b);
    OccursExtend(s3, s0, 0, m);
    OccursExtend(s4, s0, 0, a);
    OccursExtend(s1, t, |s0|, c);
    OccursExtend(s2, t, |s0|, b);
    OccursExtend(s3, t, |s0|, m);
    OccursExtend(s4, t, |s0|, a);
    OccursExtend(s2, c, |s1|, b);
    OccursExtend(s3, c, |s1|, m);
    OccursExtend(s4, c, |s1|, a);
    OccursExtend(s3, b, |s2|, m);
    OccursExtend(s4, b, |s2|, a);
    OccursExtend(s4, m, |s3|, a);
  }

  /** The filter block holds the heading and then the five lines `t`,
      `c`, `b`, `m`, `a` of technology, complexity, time to build,
      monetization and target audience, in that order, one after the
      other. */
  lemma FilterLinesInOrder(f: Filters, t: string, c: string, b: string, m: string, a: string)
    requires t == PromptLine(f, Technology) && c == PromptLine(f, Complexity)
    requires b == PromptLine(f, TimeToBuild) && m == PromptLine(f, Monetization)
    requires a == PromptLine(f, TargetAudience)
    ensures OccursAt(FiltersPart(Some(f)), FiltersHeading, 0)
    ensures OccursAt(FiltersPart(Some(f)), t, |FiltersHeading|)
    ensures OccursAt(FiltersPart(Some(f)), c, |FiltersHeading| + |t|)
    ensures OccursAt(FiltersPart(Some(f)), b, |FiltersHeading| + |t| + |c|)
    ensures OccursAt(FiltersPart(Some(f)), m, |FiltersHeading| + |t| + |c| + |b|)
    ensures OccursAt(FiltersPart(Some(f)), a, |FiltersHeading| + |t| + |c| + |b| + |m|)
  {
    SixPieces(FiltersHeading, t, c, b, m, a);
    assert FiltersPart(Some(f)) == FiltersHeading + t + c + b + m + a;
  }

  /** A filter's prompt line is empty exactly when the filter is unset or
      empty, and otherwise is its label, its value and a line break. */
  lemma PromptLineIff(f: Filters, c: Category)
    requires c != Context
    ensures PromptLine(f, c) == "" <==> c !in f || f[c] == ""
    ensures c in f && f[c] != "" ==>
      OccursAt(PromptLine(f, c), PromptLabel(c), 0) &&
      OccursAt(PromptLine(f, c), f[c], |PromptLabel(c)|)
  {
    if c in f && f[c] != "" {
      OccursAtEnd(PromptLabel(c), f[c]);
      OccursExtend(PromptLabel(c) + f[c], f[c], |PromptLabel(c)|, "\n");
      OccursAtEnd([], PromptLabel(c));
      OccursExtend(PromptLabel(c), PromptLabel(c), 0, f[c]);
      OccursExtend(PromptLabel(c) + f[c], PromptLabel(c), 0, "\n");
    }
  }

  /** With a filter object, the filter block follows the description part
      in the prompt. */
  lemma {:induction false} FilterBlockInPrompt(header: string, footer: string, req: SearchRequest)
    ensures OccursAt(PromptFrom(header, footer, req), FiltersPart(req.filters), |header| + |DescriptionPart(req)|)
  {
    var hd := header + DescriptionPart(req);
    OccursAtEnd(hd, FiltersPart(req.filters));
    OccursExtend(hd + FiltersPart(req.filters), FiltersPart(req.filters), |hd|, footer);
  }

  /** Outside free-text mode the query never reaches the prompt. */
  lemma QueryOnlyInFreeText(req: SearchRequest)
    requires req.mode != Some("free_text")
    ensures DescriptionPart(req) == "" && Prompt(req) == Prompt(req.(query := None))
  {
  }

  /** The prompt ignores the context filter and the additional comments,
      which the category-search page sends along. */
  lemma {:induction false} PromptIgnoresContextAndComments(req: SearchRequest)
    ensures var stripped := SearchRequest(
      req.query,
      if req.filters.Some? then Some(req.filters.value - {Context}) else None,
      req.mode,
      None);
      DescriptionPart(stripped) == DescriptionPart(req) &&
      FiltersPart(stripped.filters) == FiltersPart(req.filters)
  {
    if req.filters.Some? {
      var f := req.filters.value;
      var g := f - {Context};
      assert PromptLine(f, Technology) == PromptLine(g, Technology);
      assert PromptLine(f, Complexity) == PromptLine(g, Complexity);
      assert PromptLine(f, TimeToBuild) == PromptLine(g, TimeToBuild);
      assert PromptLine(f, Monetization) == PromptLine(g, Monetization);
      assert PromptLine(f, TargetAudience) == PromptLine(g, TargetAudience);
    }
  }

  // ---------------------------------------------------------------------
  // Clean-up of the AI text

  /** The three-backtick marker that opens and closes a Markdown code
      fence. */
  const Fence: string := "```"

  /** `s.replace(/<marker>\n?/g, '')` for a non-empty marker without
      regular-expression metacharacters: scanning left to right, every
      occurrence of the marker, together with one line break right after
      it if there is one, is removed; scanning resumes after the removed
      text, which is never scanned again. */
  function StripAll(s: string, marker: string): (r: string)
    requires marker != []
    ensures |r| <= |s|
    decreases |s|
  {
    if s == [] then []
    else if StartsWith(s, marker) then
      var rest := s[|marker|..];
      StripAll(if rest != [] && rest[0] == '\n' then rest[1..] else rest, marker)
    else [s[0]] + StripAll(s[1..], marker)
  }

  /** The text handed to `JSON.parse`: the AI text with every "```json"
      and then every "```" marker (each with an optional line break)
      removed, then trimmed. */
  function CleanAiText(text: string): (r: string)
    ensures |r| <= |text|
  {
    Trim(StripAll(StripAll(text, "```json"), Fence))
  }

  /** Three backticks in a row start at position `i` of `s`. */
  predicate FenceAt(s: string, i: int) {
    0 <= i && i + 3 <= |s| && s[i] == '`' && s[i + 1] == '`' && s[i + 2] == '`'
  }

  /** No fence marker occurs in `s`. */
  ghost predicate NoFence(s: string) {
    forall i :: !FenceAt(s, i)
  }

  /** `FenceAt` is an occurrence of the fence marker. */
  lemma FenceAtIff(s: string, i: nat)
    ensures FenceAt(s, i) <==> OccursAt(s, Fence, i)
  {
    if i + 3 <= |s| {
      assert s[i..i + 3][0] == s[i] && s[i..i + 3][1] == s[i + 1] && s[i..i + 3][2] == s[i + 2];
      if FenceAt(s, i) {
        assert s[i..i + 3] == Fence;
      }
    }
  }

  /** Removing every fence leaves none behind: a kept backtick is never
      followed by a removed fence, so kept text cannot join into a new
      one. The result starts with one or two backticks only where `s`
      does. */
  lemma {:induction false} StripFenceLeavesNone(s: string)
    ensures var r := StripAll(s, Fence);
      NoFence(r) &&
      (r != [] && r[0] == '`' ==> s != [] && s[0] == '`') &&
      (|r| >= 2 && r[0] == '`' && r[1] == '`' ==> |s| >= 2 && s[0] == '`' && s[1] == '`')
    decreases |s|
  {
    var r := StripAll(s, Fence);
    if s == [] {
    } else if StartsWith(s, Fence) {
      var rest := s[|Fence|..];
      var next := if rest != [] && rest[0] == '\n' then rest[1..] else rest;
      StripFenceLeavesNone(next);
      assert s[..3][0] == s[0] && s[..3][1] == s[1];
    } else {
      var tail := StripAll(s[1..], Fence);
      StripFenceLeavesNone(s[1..]);
      FenceAtIff(s, 0);
      assert r == [s[0]] + tail;
      forall i ensures !FenceAt(r, i) {
        if i > 0 {
          assert !FenceAt(tail, i - 1);
        }
      }
    }
  }

  /** A piece of a string without fences has no fences either. */
  lemma NoFenceSlice(s: string, i: nat, j: nat)
    requires NoFence(s) && i <= j <= |s|
    ensures NoFence(s[i..j])
  {
    forall k ensures !FenceAt(s[i..j], k) {
      assert !FenceAt(s, i + k);
    }
  }

  /** The cleaned text contains no fence marker and is never longer than
      the AI text. */
  lemma CleanAiTextNoFence(text: string)
    ensures NoFence(CleanAiText(text))
    ensures |CleanAiText(text)| <= |text|
  {
    var stripped := StripAll(StripAll(text, "```json"), Fence);
    StripFenceLeavesNone(StripAll(text, "```json"));
    var i := LeadingWhitespace(stripped);
    NoFenceSlice(stripped, i, i + |Trim(stripped)|);
  }

  /** Text without the marker comes through unchanged. */
  lemma {:induction false} StripAbsent(s: string, marker: string)
    requires marker != []
    requires forall i: nat :: !OccursAt(s, marker, i)
    ensures StripAll(s, marker) == s
    decreases |s|
  {
    if s != [] {
      assert !OccursAt(s, marker, 0);
      forall i: nat ensures !OccursAt(s[1..], marker, i) {
        if i + |marker| <= |s| - 1 {
          assert s[1..][i..i + |marker|] == s[i + 1..i + 1 + |marker|];
          assert !OccursAt(s, marker, i + 1);
        }
      }
      StripAbsent(s[1..], marker);
    }
  }

  /** An AI text without any fence is only trimmed. */
  lemma CleanAiTextWithoutFence(text: string)
    requires NoFence(text)
    ensures CleanAiText(text) == Trim(text)
  {
    forall i: nat ensures !OccursAt(text, Fence, i) {
      FenceAtIff(text, i);
    }
    forall i: nat ensures !OccursAt(text, "```json", i) {
      if i + 7 <= |text| {
        assert text[i..i + 3] == text[i..i + 7][..3];
        FenceAtIff(text, i);
        assert !FenceAt(text, i);
      }
    }
    StripAbsent(text, "```json");
    StripAbsent(text, Fence);
  }

  // ---------------------------------------------------------------------
  // Validation and storage

  /** One element of the parsed AI reply; `title` or `description` is None
      where the element has no such string field. */
  datatype AiIdea = AiIdea(title: Option<string>, description: Option<string>)

  /** What `JSON.parse` makes of the cleaned text: it throws, or it gives
      something other than an array, or an array of elements, where None
      is a `null` element (reading a field of it throws). */
  datatype Parsed = Unparseable | NotArray | ArrayOf(items: seq<Option<AiIdea>>)

  /** A row handed to the database insert. */
  datatype IdeaRecord = IdeaRecord(
    userId: string,
    title: Option<string>,
    description: Option<string>,
    technology: Option<string>,
    complexity: Option<string>,
    timeToBuild: Option<string>,
    monetization: Option<string>,
    targetAudience: Option<string>,
    searchQuery: Option<string>,
    searchMode: string)

  /** The most ideas stored for one request. */
  const MaxStored: nat := 10

  /** The row stored for one AI idea. */
  function RecordFor(userId: string, idea: AiIdea, req: SearchRequest): IdeaRecord {
    IdeaRecord(
      userId, idea.title, idea.description,
      OrNull(FilterValue(req.filters, Technology)),
      OrNull(FilterValue(req.filters, Complexity)),
      OrNull(FilterValue(req.filters, TimeToBuild)),
      OrNull(FilterValue(req.filters, Monetization)),
      OrNull(FilterValue(req.filters, TargetAudience)),
      OrNull(req.query),
      if Truthy(req.mode) then req.mode.value else "free_text")
  }

  /** A `null` element among the first ten, which the mapping reaches. */
  predicate NullAmongStored(items: seq<Option<AiIdea>>) {
    exists i :: 0 <= i < |items| && i < MaxStored && items[i].None?
  }

  /** `ideas.slice(0, 10).map(...)`: None when the mapping throws on a
      `null` element among the first ten; otherwise one row for each of the
      first ten ideas, in order, each with the idea's title and
      description, the user, the filter values (null where unset or
      empty), the query (null where empty) and the mode (`free_text` where
      none was sent). Elements after the tenth are never read. */
  function IdeasToStore(userId: string, items: seq<Option<AiIdea>>, req: SearchRequest): (r: Option<seq<IdeaRecord>>)
    ensures r.None? <==> NullAmongStored(items)
    ensures r.Some? ==> |r.value| == if |items| < MaxStored then |items| else MaxStored
    ensures r.Some? ==> forall i :: 0 <= i < |r.value| ==>
      items[i].Some? && r.value[i].userId == userId &&
      r.value[i].title == items[i].value.title && r.value[i].description == items[i].value.description
    ensures r.Some? ==> forall i :: 0 <= i < |r.value| ==>
      r.value[i].technology == OrNull(FilterValue(req.filters, Technology)) &&
      r.value[i].complexity == OrNull(FilterValue(req.filters, Complexity)) &&
      r.value[i].timeToBuild == OrNull(FilterValue(req.filters, TimeToBuild)) &&
      r.value[i].monetization == OrNull(FilterValue(req.filters, Monetization)) &&
      r.value[i].targetAudience == OrNull(FilterValue(req.filters, TargetAudience))
    ensures r.Some? ==> forall i :: 0 <= i < |r.value| ==>
      r.value[i].searchQuery == OrNull(req.query) &&
      r.value[i].searchMode == (if Truthy(req.mode) then req.mode.value else "free_text")
  {
    var n := if |items| < MaxStored then |items| else MaxStored;
    if NullAmongStored(items) then None
    else Some(seq(n, i requires 0 <= i < n => RecordFor(userId, items[i].value, req)))
  }

  /** The reply of the endpoint: an error with its status, or the stored
      rows with status 200. */
  datatype Response = Failure(status: int, error: string) | Success(ideas: seq<Idea>)

  /** The request passes the guards that come before the AI call: a key is
      configured, a user is signed in, the body was read, and it carries a
      query or a filter object. */
  predicate Admitted(apiKey: Option<string>, user: Option<string>, body: Option<SearchRequest>) {
    Truthy(apiKey) && user.Some? && body.Some? &&
    (Truthy(body.value.query) || body.value.filters.Some?)
  }

  /** The reply `r` is what the AI text `text` leads to: the cleaned text
      is parsed; a reply that cannot be parsed, or that is not a non-empty
      array, is an error; a `null` among its first ten elements makes the
      mapping throw, which the route's outer handler answers with its
      internal error; otherwise the rows for its first ten ideas are
      inserted, and the reply carries the stored rows unless the insert
      fails. */
  predicate HandledAs(r: Response, userId: string, req: SearchRequest, text: string,
                      parse: string -> Parsed, insert: seq<IdeaRecord> -> Option<seq<Idea>>)
  {
    var parsed := parse(CleanAiText(text));
    (parsed.Unparseable? ==> r == Failure(500, "Failed to parse AI response")) &&
    (parsed.NotArray? || parsed == ArrayOf([]) ==> r == Failure(500, "Invalid response from AI")) &&
    (parsed.ArrayOf? && parsed.items != [] && NullAmongStored(parsed.items) ==>
      r == Failure(500, "Internal server error")) &&
    (parsed.ArrayOf? && parsed.items != [] && !NullAmongStored(parsed.items) ==>
      var stored := insert(IdeasToStore(userId, parsed.items, req).value);
      r == if stored.None? then Failure(500, "Failed to store ideas") else Success(stored.value))
  }

  /** The handling of the AI text once it has arrived. */
  method HandleAiText(userId: string, req: SearchRequest, text: string,
                      parse: string -> Parsed, insert: seq<IdeaRecord> -> Option<seq<Idea>>)
    returns (r: Response)
    ensures HandledAs(r, userId, req, text, parse, insert)
  {
    var ideas := parse(CleanAiText(text));
    if ideas.Unparseable? {
      return Failure(500, "Failed to parse AI response");
    }
    if !ideas.ArrayOf? || |ideas.items| == 0 {
      return Failure(500, "Invalid response from AI");
    }
    var records := IdeasToStore(userId, ideas.items, req);
    if records.None? {
      return Failure(500, "Internal server error");
    }
    var stored := insert(records.value);
    if stored.None? {
      return Failure(500, "Failed to store ideas");
    }
    return Success(stored.value);
  }

  /** The reply of the first guard a request fails, in the order the route
      checks them, or None when it passes them all. */
  function Guard(apiKey: Option<string>, user: Option<string>, body: Option<SearchRequest>): (g: Option<Response>)
    ensures g.None? <==> Admitted(apiKey, user, body)
    ensures g.Some? ==> g.value.Failure? && g.value.status in {400, 401, 500}
    ensures g == Some(Failure(500, "AI service not configured. Please contact support.")) <==> !Truthy(apiKey)
    ensures g == Some(Failure(401, "Unauthorized")) <==> Truthy(apiKey) && user.None?
    ensures g == Some(Failure(500, "Internal server error")) <==> Truthy(apiKey) && user.Some? && body.None?
    ensures g == Some(Failure(400, "Query or filters required")) <==>
      Truthy(apiKey) && user.Some? && body.Some? && !Admitted(apiKey, user, body)
  {
    if !Truthy(apiKey) then Some(Failure(500, "AI service not configured. Please contact support."))
    else if user.None? then Some(Failure(401, "Unauthorized"))
    else if body.None? then Some(Failure(500, "Internal server error"))
    else if !Truthy(body.value.query) && body.value.filters.None? then Some(Failure(400, "Query or filters required"))
    else None
  }

  /** `POST /api/generate-ideas`. `user` is the id of the signed-in user,
      if any; `body` is the JSON body, None when it cannot be read. The
      guards run in order: key, user, body, query or filters; then the
      prompt goes to the AI, and a failed call is an error. */
  method Post(apiKey: Option<string>, user: Option<string>, body: Option<SearchRequest>,
              generate: string -> Option<string>, parse: string -> Parsed,
              insert: seq<IdeaRecord> -> Option<seq<Idea>>)
    returns (r: Response)
    ensures Guard(apiKey, user, body).Some? ==> r == Guard(apiKey, user, body).value
    ensures Admitted(apiKey, user, body) && generate(Prompt(body.value)).None? ==>
      r == Failure(500, "Failed to generate ideas. Please try again.")
    ensures Admitted(apiKey, user, body) && generate(Prompt(body.value)).Some? ==>
      HandledAs(r, user.value, body.value, generate(Prompt(body.value)).value, parse, insert)
  {
    var guard := Guard(apiKey, user, body);
    if guard.Some? {
      return guard.value;
    }
    var req := body.value;
    var prompt := BuildPrompt(req);
    var text := generate(prompt);
    if text.None? {
      return Failure(500, "Failed to generate ideas. Please try again.");
    }
    r := HandleAiText(user.value, req, text.value, parse, insert);
  }
}
