# Ideator, modelled in Dafny

Ideator is a web app that helps people find app ideas. A signed-in user
describes what they want, either as free text in the dashboard's search bar
or by picking categories (technology, context, complexity, time to build,
monetization, target audience). The app then calls the
`POST /api/generate-ideas` route. The route checks that it is configured and
that the user is signed in. It then builds a prompt for the Gemini model,
cleans the AI's reply of Markdown code fences, parses it, and stores up to
ten ideas. The stored ideas come back to the dashboard, where the user
swipes through them card by card: right saves an idea, left skips it. When
the stack is finished, the saved ideas are recorded and the results are
shown. Category searches are also written to a search history, which
labels, previews and deletes past searches. Most interface text goes
through `t(key)`, which looks up a dotted key in the English or Turkish
table. Some messages are fixed English text instead: the dashboard's toasts,
the swipe toasts, the history page's error toast and every error reply of
the route. Category values can also be translated between the two languages by
their position in parallel lists.

The model follows the program's structure, one module per source file.

Pure logic becomes functions and lemmas:
- `Types`, `Text`: shared values and JavaScript string semantics;
- `Language`, `Messages`: the translation tables and the dotted-key walk;
- `CategoriesI18n`: category translation;
- `GenerateIdeas`: the route's prompt builder, reply cleaning and record
  mapping;
- `ConfirmationModal`: the search summary;
- `History`: date and label formatting.

React components and pages whose state changes step by step become classes.
Their fields are the `useState` state that the modelled handlers read or
change; the state left out is listed under "Left out":
- `LanguageContext.LanguageProvider`;
- `Swipe.SwipeableCards`;
- `CategorySelector.Selector`;
- `CategorySearch.CategorySearchPage`;
- `History.HistoryPage`;
- `Signup.SignupPage`;
- `SearchBar.SearchBar`;
- `Dashboard.DashboardPage`.

Each handler of these classes is proved against a specification function: a
state transition such as `Dashboard.Apply` or `Swipe.Decide`, or a request or
record builder. The properties are proved about those functions. The one
loop in the core, the key walk of `t`, is a method with loop invariants.
The prompt builder and the summary builder are straight-line sequences of
`+=` and `push` steps in the source. They are step-by-step methods proved
equal to the functions `Prompt` and `Summary`.

Everything outside the program becomes a parameter:
- the AI call, `JSON.parse` and the database insert;
- the sign-up call, the stored language preference and the clock;
- the translation function handed to a component.

A handler that receives such a result takes it as an outcome value and
returns what the page shows or sends. Toasts are returned as values.
Whether `loading` was raised and lowered is recorded in a ghost trace.

## Model

| member | source | states |
|---|---|---|
| Types.ModeName | types/index.ts:15 | the two search modes have the two distinct wire names `free_text` and `category_select` |
| Types.FilterValue | app/api/generate-ideas/route.ts:111-115 | `filters?.key` is present exactly when the filter object is present and holds the key, and is then that value |
| Types.OrNull | app/api/generate-ideas/route.ts:111-116 | `value \|\| null` keeps exactly the truthy (present, non-empty) strings, unchanged |
| Text.Trim | components/SearchBar.tsx:18-19 | `trim()` returns a contiguous piece of the input, with only JavaScript whitespace cut off either end, that starts and ends with a non-whitespace character |
| Text.TrimEmptyIff | components/SearchBar.tsx:18 | a trimmed string is empty exactly when every character is whitespace |
| Text.TrimIdempotent | components/SearchBar.tsx:19 | trimming twice is trimming once |
| Text.Truncate | app/history/page.tsx:124 | a string within the limit is unchanged; a longer one keeps its first `n` characters and gains "..." |
| Text.Join | app/history/page.tsx:123 | joining no parts gives "" and joining one part gives that part |
| Text.NatToString | app/history/page.tsx:110-112 | a number prints as decimal digits, with no leading zero |
| Text.NatToStringRoundTrip | app/history/page.tsx:110-112 | reading the printed digits back gives the number |
| Text.IntToString | app/history/page.tsx:110 | a negative number prints as a minus sign followed by the digits of its magnitude |
| Text.IndexOfFrom | app/auth/signup/page.tsx:56 | `indexOf` gives the first occurrence at or after the start, or -1 exactly when there is none |
| Text.ReplaceFirst | app/auth/signup/page.tsx:56 | `replace` with a string pattern replaces only the first occurrence, and leaves a string without one unchanged |
| Language.ParseLanguage | contexts/LanguageContext.tsx:18-24 | a stored preference is adopted exactly when it is "en" or "tr", and then names that language |
| Language.LanguageCodeRoundTrip | contexts/LanguageContext.tsx:20-28 | a language that is written to storage is read back as the same language |
| Language.Split | contexts/LanguageContext.tsx:32 | `key.split('.')` gives at least one part, no part holds a dot, and joining the parts with dots gives the key back |
| Language.SplitJoinRoundTrip | contexts/LanguageContext.tsx:32 | splitting the dot-join of dot-free parts gives those parts back |
| Language.WalkStep | contexts/LanguageContext.tsx:35-41 | one step of the walk descends into the named entry |
| Language.WalkConcat | contexts/LanguageContext.tsx:35-41 | walking a path in two halves is walking it whole |
| Language.TranslateFound | contexts/LanguageContext.tsx:31-44 | a key whose path ends at a string translates to that string |
| Language.TranslateMissing | contexts/LanguageContext.tsx:35-43 | a key whose path leaves the table translates to the key itself |
| Language.TranslateSection | contexts/LanguageContext.tsx:43 | a key that ends at a nested table, not a string, translates to the key itself |
| Language.WalkPastLeaf | contexts/LanguageContext.tsx:35-39 | a path that continues past a string finds nothing |
| Language.TranslateLeafOrKey | contexts/LanguageContext.tsx:43 | a translation is either the key itself or a string stored in the table |
| Language.TranslateIn | contexts/LanguageContext.tsx:31-44 | defines `t(key)` over a table: the string the dotted path leads to, or the key itself; its meaning is stated by the lemmas below |
| Language.LookupKey | contexts/LanguageContext.tsx:31-44 | the loop over the key's parts computes the translation of the key |
| Messages.Translations | contexts/LanguageContext.tsx:61-467 | the English and Turkish tables, section by section and entry by entry, with the twelve sections of the source |
| LanguageContext.LanguageProvider.constructor | contexts/LanguageContext.tsx:16 | the language starts as English |
| LanguageContext.LanguageProvider.LoadSavedPreference | contexts/LanguageContext.tsx:18-24 | a valid stored preference is adopted, and anything else leaves the language as it was |
| LanguageContext.LanguageProvider.SetLanguage | contexts/LanguageContext.tsx:26-29 | the language changes and its code is what is written to storage |
| LanguageContext.LanguageProvider.T | contexts/LanguageContext.tsx:31-44 | `t(key)` is the translation of the key in the current language's table |
| LanguageContext.EnCommonSection | contexts/LanguageContext.tsx:64-81 | the English table's `common` section is the English common table |
| LanguageContext.TrCommonSection | contexts/LanguageContext.tsx:267-284 | the Turkish table's `common` section is the Turkish common table |
| LanguageContext.BackEntries | contexts/LanguageContext.tsx:65 | `back` is "Back" in the English common table and "Geri" in the Turkish one |
| LanguageContext.CommonBack | contexts/LanguageContext.tsx:268 | `common.back` leads to "Back" in English and to "Geri" in Turkish |
| LanguageContext.PastLeafInCommon | contexts/LanguageContext.tsx:35-39 | a key that goes past `common.back` is not found in either language |
| CategoriesI18n.CategoryList | lib/categories-i18n.ts:1-97 | exactly technology, context, monetization and target audience have translated value lists |
| CategoriesI18n.IndexOf | lib/categories-i18n.ts:115 | `indexOf` gives the first position of the value, or -1 exactly when the value is absent |
| CategoriesI18n.IndexOfDistinct | lib/categories-i18n.ts:115 | in a list without duplicates, the value at position `i` is found at `i` |
| CategoriesI18n.CategoryTranslation | lib/categories-i18n.ts:101-119 | same language gives the value back; across languages, a category naming an inherited `Object.prototype` member throws (None); otherwise an unknown category or an unlisted value gives the value back, and a listed one the value at the same position in the target list, falling back to the value |
| CategoriesI18n.CategoriesInLanguage | lib/categories-i18n.ts:122-124 | the lists of a language are given for exactly the four translated categories |
| CategoriesI18n.TechnologyParallel | lib/categories-i18n.ts:3-13 | the English and Turkish technology lists have the same length, no duplicates and no empty value |
| CategoriesI18n.ContextParallel | lib/categories-i18n.ts:14-27 | the English and Turkish context lists have the same length, no duplicates and no empty value |
| CategoriesI18n.MonetizationParallel | lib/categories-i18n.ts:28-37 | the English and Turkish monetization lists have the same length, no duplicates and no empty value |
| CategoriesI18n.TargetAudienceParallel | lib/categories-i18n.ts:38-48 | the English and Turkish target-audience lists have the same length, no duplicates and no empty value |
| CategoriesI18n.ListsParallel | lib/categories-i18n.ts:1-97 | every translated category has parallel English and Turkish lists |
| CategoriesI18n.SameIndex | lib/categories-i18n.ts:113-118 | a listed value translates to the value at the same position in the other language |
| CategoriesI18n.RoundTrip | lib/categories-i18n.ts:101-119 | translating a listed value to the other language does not throw, and translating it back gives it back |
| Swipe.DragDecision | components/SwipeableCards.tsx:28-33 | a drag counts as a swipe only beyond 100 pixels either way: right for a positive offset, left for a negative one |
| Swipe.Decide | components/SwipeableCards.tsx:59-80 | a right swipe appends the current idea to the saved ones; the stack moves to the next card, and on the last card it completes with the saved ideas |
| Swipe.KeptShape | components/SwipeableCards.tsx:65 | the ideas kept by a run are as many as the right swipes, at most all, and all taken from the stack |
| Swipe.Run | components/SwipeableCards.tsx:59-80 | the current card always stays within the stack |
| Swipe.RunBeforeLast | components/SwipeableCards.tsx:71-79 | before the last card, a sequence of swipes points at the next card, keeps the right-swiped ideas and completes nothing |
| Swipe.RunToEnd | components/SwipeableCards.tsx:71-73 | swiping every card once completes the stack exactly once, with the right-swiped ideas in order |
| Swipe.RunPastEnd | components/SwipeableCards.tsx:47-49 | swipes after the last card stay on it and complete the stack again each time |
| Swipe.SwipeableCards.constructor | components/SwipeableCards.tsx:17-19 | a stack starts at the first card with nothing saved |
| Swipe.SwipeableCards.CurrentIdea | components/SwipeableCards.tsx:82-84 | there is a current card exactly while the index is within the stack |
| Swipe.SwipeableCards.Counter | components/SwipeableCards.tsx:89-91 | the counter shows the one-based position and the stack size, and only while a card is shown |
| Swipe.SwipeableCards.HandleSwipe | components/SwipeableCards.tsx:59-80 | a button swipe takes the step `Decide` describes and records the direction |
| Swipe.SwipeableCards.HandleDragEnd | components/SwipeableCards.tsx:28-57 | a drag within the threshold changes nothing; beyond it, it acts as a swipe in the drag's direction |
| CategorySelector.Toggle | components/CategorySelector.tsx:18-23 | selecting the selected value clears the category, any other value selects it, and other categories are untouched |
| CategorySelector.HasFiltersIff | components/CategorySelector.tsx:29 | there are filters exactly when some category is set |
| CategorySelector.ToggleTwiceFromUnset | components/CategorySelector.tsx:18-23 | selecting a value of an unset category twice restores the filters |
| CategorySelector.ToggleOnSetsFilter | components/CategorySelector.tsx:21 | selecting a value that is not selected leaves some filter set |
| CategorySelector.Selector.constructor | components/CategorySelector.tsx:15-16 | the selector starts with no filters, collapsed |
| CategorySelector.Selector.HandleCategorySelect | components/CategorySelector.tsx:18-23 | a selection toggles the filters and leaves the expansion unchanged |
| CategorySelector.Selector.ToggleExpanded | components/CategorySelector.tsx:36 | the expansion flips and the filters are unchanged |
| CategorySelector.Selector.HandleSubmit | components/CategorySelector.tsx:25-27 | the current filters are submitted |
| CategorySelector.Selector.SubmitDisabled | components/CategorySelector.tsx:151 | the button is disabled while loading or when no category is set |
| CategorySearch.RequestBody | app/category-search/page.tsx:35-39 | the request has no query, the filters, category mode, and the trimmed comments, which are absent when only whitespace |
| CategorySearch.IdeaIds | app/category-search/page.tsx:68 | the ids of the generated ideas, in order |
| CategorySearch.HistoryEntry | app/category-search/page.tsx:63-81 | a history row is written exactly when a user is signed in and ideas came back; it carries the user, category mode, the filters and the ideas' ids |
| CategorySearch.CategorySearchPage.constructor | app/category-search/page.tsx:16-18 | the page starts with no filters, no comments and not loading |
| CategorySearch.CategorySearchPage.HandleCategorySelect | app/category-search/page.tsx:22-27 | a selection toggles the filters and nothing else |
| CategorySearch.CategorySearchPage.SetAdditionalComments | app/category-search/page.tsx:197 | typing replaces the comments and nothing else |
| CategorySearch.CategorySearchPage.GenerateDisabled | app/category-search/page.tsx:210 | the button is disabled while loading or when no category is set |
| CategorySearch.CategorySearchPage.HandleSubmit | app/category-search/page.tsx:29-61 | the request is built from the filters and comments; on success the history row is written and the ideas are handed on, on failure neither; loading ends lowered |
| History.FormatDate | app/history/page.tsx:102-114 | under an hour prints minutes, under a day hours (1-23), under a week days (1-6), and older dates fall back to the locale date |
| History.MinutesInRange | app/history/page.tsx:106-110 | a time under an hour prints a minute count between 0 and 59 |
| History.TruthyValues | app/history/page.tsx:121-123 | exactly the non-empty string values of the filter object are kept, and nothing else |
| History.TruthyValuesSingle | app/history/page.tsx:121-123 | one filter entry contributes its value exactly when that value is truthy |
| History.TruthyValuesAppend | app/history/page.tsx:121-123 | the values come in entry order, one per truthy entry, duplicates included |
| History.SearchLabel | app/history/page.tsx:116-128 | a free-text entry is labelled by its query or "Text search"; a category entry by its values, joined and cut to 50 characters, or "Category search" |
| History.JoinNonEmpty | app/history/page.tsx:123 | joining non-empty parts gives a non-empty string |
| History.LabelNonEmpty | app/history/page.tsx:116-128 | no history entry has an empty label |
| History.PreviewTitles | app/history/page.tsx:211-217 | each previewed title is the idea's title cut to 30 characters |
| History.PreviewOf | app/history/page.tsx:208-224 | the preview is shown exactly for entries with ideas; it shows the first three titles and "+n more" exactly when there are more |
| History.RemoveById | app/history/page.tsx:94 | the entries kept are exactly those without the deleted id |
| History.RemoveByIdAppend | app/history/page.tsx:94 | filtering a concatenation filters each part |
| History.RemoveByIdCount | app/history/page.tsx:94 | exactly the entries with the id are removed |
| History.RemoveByIdIdempotent | app/history/page.tsx:94 | deleting the same id twice is deleting it once |
| History.ViewSearch | app/history/page.tsx:77-83 | viewing an entry hands on its ideas exactly when it has some |
| History.HistoryPage.constructor | app/history/page.tsx:26 | the page holds the entries it was loaded with |
| History.HistoryPage.HandleDeleteSearch | app/history/page.tsx:85-100 | a successful delete removes exactly the entries with that id; a failed one changes nothing |
| ConfirmationModal.Summary | components/SearchConfirmationModal.tsx:31-50 | defines the summary lines: the query line, the filter lines, the comments line; its shape is stated by the lemmas below |
| ConfirmationModal.PushFilterLine | components/SearchConfirmationModal.tsx:39-42 | one conditional push appends the category's line exactly when it holds a non-empty value |
| ConfirmationModal.PushFilterLines | components/SearchConfirmationModal.tsx:38-43 | the filter block appends the technology, context, monetization and target-audience lines in that order |
| ConfirmationModal.BuildSummary | components/SearchConfirmationModal.tsx:31-50 | the summary is the query line, then the filter lines, then the comments line, each only when it has a value |
| ConfirmationModal.SummaryShape | components/SearchConfirmationModal.tsx:31-50 | the summary has at most six lines, and is empty exactly when nothing was asked for |
| ConfirmationModal.SummaryOrder | components/SearchConfirmationModal.tsx:34-47 | a shown query is the first line and shown comments are the last line |
| ConfirmationModal.CategorySearchHasNoQueryLine | components/SearchConfirmationModal.tsx:34-36 | a category search never shows its query |
| ConfirmationModal.SummaryIgnoresComplexityAndTime | components/SearchConfirmationModal.tsx:38-43 | complexity and time to build never change the summary |
| ConfirmationModal.Render | components/SearchConfirmationModal.tsx:77-88 | a closed modal renders nothing; an open one lists the summary, or shows the no-criteria message exactly when the summary is empty |
| GenerateIdeas.Prompt | app/api/generate-ideas/route.ts:33-67 | defines the prompt of a request: the header, the description line, the filter block and the closing instructions; its shape is stated by the lemmas below |
| GenerateIdeas.AppendPromptLine | app/api/generate-ideas/route.ts:41-45 | one conditional `prompt +=` appends the filter's line |
| GenerateIdeas.AppendFilters | app/api/generate-ideas/route.ts:39-46 | the `if (filters)` block appends the filter block, which is empty without a filter object |
| GenerateIdeas.BuildPrompt | app/api/generate-ideas/route.ts:33-67 | the step-by-step builder produces the prompt: header, description, filter block, closing instructions |
| GenerateIdeas.PromptFrame | app/api/generate-ideas/route.ts:48-67 | every prompt opens with the header and closes with the closing instructions |
| GenerateIdeas.DescriptionAfterHeader | app/api/generate-ideas/route.ts:35-37 | a free-text request with a query has its description line right after the header |
| GenerateIdeas.FilterLinesInOrder | app/api/generate-ideas/route.ts:39-46 | the filter block is the heading and then the technology, complexity, time, monetization and audience lines, in that order |
| GenerateIdeas.PromptLineIff | app/api/generate-ideas/route.ts:41-45 | a filter contributes a line exactly when it holds a non-empty value, and the line carries that value |
| GenerateIdeas.FilterBlockInPrompt | app/api/generate-ideas/route.ts:39-46 | the filter block follows the description in the prompt |
| GenerateIdeas.QueryOnlyInFreeText | app/api/generate-ideas/route.ts:35 | outside free-text mode the query never reaches the prompt |
| GenerateIdeas.PromptIgnoresContextAndComments | app/api/generate-ideas/route.ts:26-46 | the context filter and the additional comments never change the prompt |
| GenerateIdeas.CleanAiText | app/api/generate-ideas/route.ts:88 | the cleaned text is never longer than the AI text; that it holds no fence is stated by CleanAiTextNoFence |
| GenerateIdeas.StripAll | app/api/generate-ideas/route.ts:88 | removing a marker never lengthens the text |
| GenerateIdeas.StripFenceLeavesNone | app/api/generate-ideas/route.ts:88 | after removing every fence marker no fence remains |
| GenerateIdeas.CleanAiTextNoFence | app/api/generate-ideas/route.ts:88 | the text handed to the parser contains no code fence and is no longer than the AI text |
| GenerateIdeas.StripAbsent | app/api/generate-ideas/route.ts:88 | text without the marker is left unchanged |
| GenerateIdeas.CleanAiTextWithoutFence | app/api/generate-ideas/route.ts:88 | an AI text without fences is only trimmed |
| GenerateIdeas.IdeasToStore | app/api/generate-ideas/route.ts:107-118 | the mapping throws (None) exactly when a `null` element is among the first ten; otherwise one record for each of the first ten ideas, in order, each with the user, the idea's title and description, the truthy filters, the truthy query and the mode, which defaults to free text |
| GenerateIdeas.HandleAiText | app/api/generate-ideas/route.ts:85-142 | unparseable text gives 500 "Failed to parse AI response"; a non-array or empty array gives 500 "Invalid response from AI"; a `null` among the first ten elements gives the catch-all 500 "Internal server error"; otherwise the records are inserted, giving the stored ideas or 500 "Failed to store ideas" |
| GenerateIdeas.Guard | app/api/generate-ideas/route.ts:10-30 | a request is refused exactly when it is not admitted: no key gives 500, no user 401, an unreadable body 500, and no query and no filters 400, in that order |
| GenerateIdeas.Post | app/api/generate-ideas/route.ts:7-143 | a refused request gets the guard's reply; an admitted one with no AI text gets 500 "Failed to generate ideas. Please try again."; otherwise the AI text is handled as HandleAiText states, including the catch-all 500 for a `null` element |
| Signup.Validate | app/auth/signup/page.tsx:28-36 | the pair is sent exactly when it matches and is at least 6 characters; a mismatch is reported before a short password |
| Signup.SixCharactersPass | app/auth/signup/page.tsx:33 | the length bound is inclusive |
| Signup.FailedMessage | app/auth/signup/page.tsx:56 | the failure message is the template with its first `{action}` replaced by "signup", or the template when it has none |
| Signup.FailedMessageFills | app/auth/signup/page.tsx:56 | a template whose placeholder has no brace before it gets "signup" in its place and is otherwise unchanged |
| Signup.SignupToast | app/auth/signup/page.tsx:28-59 | defines the toast of a submission from the pair and the call's outcome; its cases are stated by SignupToastCases |
| Signup.SignupToastCases | app/auth/signup/page.tsx:28-59 | the toast is a success exactly when the pair is valid and the account was created; a refused pair shows its error whatever the call would do |
| Signup.SignupPage.constructor | app/auth/signup/page.tsx:17-20 | the form starts empty and not loading |
| Signup.SignupPage.SetLoading | app/auth/signup/page.tsx:38 | the loading flag takes the value, and the value is recorded |
| Signup.SignupPage.HandleSignup | app/auth/signup/page.tsx:25-60 | the sign-up call is made exactly for a valid pair; loading is raised and lowered around it and only then; the page moves to login exactly when the account was created |
| SearchBar.SearchBar.constructor | components/SearchBar.tsx:14 | the query starts empty |
| SearchBar.SearchBar.SetQuery | components/SearchBar.tsx:31 | typing replaces the query |
| SearchBar.SearchBar.SubmitDisabled | components/SearchBar.tsx:40 | the button is disabled exactly while loading or while the query is all whitespace |
| SearchBar.SearchBar.HandleSubmit | components/SearchBar.tsx:16-21 | the callback is called exactly when the query is not all whitespace, with the trimmed query, which is non-empty and already trimmed |
| SearchBar.SearchBar.SubmitGateAgrees | components/SearchBar.tsx:40 | when not loading, the button is enabled exactly for the queries the handler sends; while loading it is disabled |
| Dashboard.Apply | app/dashboard/page.tsx:41-112 | a successful generation shows the new ideas for swiping, and a failed one changes nothing; a finished stack records the liked ideas and shows the results; New Search returns to the opening state |
| Dashboard.RoundReturnsToInitial | app/dashboard/page.tsx:108-112 | generate, finish the stack and start a new search, from any state, leaves the page as it opened |
| Dashboard.SwipeViewAfterGeneration | app/dashboard/page.tsx:169 | the swipe stack is shown after a generation exactly when ideas came back, and never after New Search or a finished stack |
| Dashboard.SavedIdeaRecords | app/dashboard/page.tsx:88-91 | one record per liked idea, in order, with the user's id and the idea's id |
| Dashboard.Ids | app/dashboard/page.tsx:88-91 | the ids of the ideas, in order |
| Dashboard.RecordIdsAreLikedIds | app/dashboard/page.tsx:88-91 | the records name exactly the liked ideas, in order |
| Dashboard.RecordsOfSwipeRun | app/dashboard/page.tsx:80-93 | after a full pass through a stack, the records name the right-swiped ideas in the order shown, one per right swipe, and only ideas of the stack |
| Dashboard.RequestsPassRouteGuards | app/dashboard/page.tsx:35-62 | a non-empty free-text query and a category search both pass the route's guards for a signed-in user, and only the free-text one is described in the prompt |
| Dashboard.SavedToast | app/dashboard/page.tsx:94 | the save toast reads "Saved n idea(s)!" with the digits of the number of liked ideas |
| Dashboard.DashboardPage.constructor | app/dashboard/page.tsx:19-22 | the page opens in the search view with no ideas and not loading |
| Dashboard.DashboardPage.SetLoading | app/dashboard/page.tsx:33 | the loading flag takes the value, the value is recorded, and the view state is unchanged |
| Dashboard.DashboardPage.Generate | app/dashboard/page.tsx:32-54 | the state moves as `Apply` says for the outcome; loading is raised and then lowered; the toast reports failure or success |
| Dashboard.DashboardPage.HandleSearch | app/dashboard/page.tsx:32-54 | sends the query in free-text mode and moves the state as `Apply` says; the toast is a success exactly when ideas came back |
| Dashboard.DashboardPage.HandleCategorySubmit | app/dashboard/page.tsx:56-78 | sends the filters in category mode and moves the state as `Apply` says; the toast is a success exactly when ideas came back |
| Dashboard.DashboardPage.HandleSwipeComplete | app/dashboard/page.tsx:80-102 | the results show the liked ideas; records are written exactly when something was liked by a signed-in user; the save toast appears exactly when they were written without a throw |
| Dashboard.DashboardPage.HandleNewSearch | app/dashboard/page.tsx:108-112 | both lists are emptied and the search view returns, as `Apply` says |

## Left out

- The Gemini call, `JSON.parse`, the Supabase queries and inserts, `fetch`,
  `localStorage`, `sessionStorage`, the router and the toast library are
  not modelled. Their results are parameters or outcome values, and
  toasts are returned as values.
- Console logging is not modelled. Neither are the `details` field of the
  route's 500 "Internal server error" reply and the choice of AI model.
- The route's catch-all 500 "Internal server error" reply is modelled for a
  body that cannot be read and for a `null` element among the first ten
  parsed ideas. Other throws that reach it, from the auth call or the
  database client, are outside the model.
- History.FormatDate: the fallback for dates a week or more old is the
  browser's locale date. It is modelled as None.
- History.HistoryPage.constructor: the history is taken as loaded. The
  queries that fetch it, the joins that attach ideas to it, and the page's
  `loading` flag, which only covers that fetch, are not modelled.
- Signup.Validate: lengths count Unicode scalar values. JavaScript counts
  UTF-16 code units, which differ for characters outside the Basic
  Multilingual Plane.
- Text.Truncate: lengths count Unicode scalar values. JavaScript counts
  UTF-16 code units, which differ for characters outside the Basic
  Multilingual Plane.
- Signup.SignupPage.HandleSignup: the e-mail field and the redirect option
  of the sign-up call are not modelled. The call is an outcome value.
- Swipe.SwipeableCards.HandleSwipe: the 200 ms timer is not modelled. The
  card advance it delays is taken to happen at once. The exit animation
  state (`exitX`, `swipeDirection`) and the "Idea saved!" and "Idea
  skipped" toasts are not modelled.
- Swipe.SwipeableCards.HandleDragEnd: the same omissions as HandleSwipe:
  the timer, the exit animation state and the toasts.
- CategorySelector.Toggle: an unselected category is removed from the
  filter map. The source sets it to `undefined`. No code in the core can
  tell the two apart.
- Types.FilterValue: filter values and JSON fields are strings or absent.
  Other JSON value types are not modelled.
- GenerateIdeas.IdeasToStore: the title and description of a parsed
  element are strings or absent. Other JSON value types are not modelled.
- GenerateIdeas.PromptFrame: the prompt lemmas are stated over any header
  and closing text rather than the literal strings. The literal prompt text
  is fixed once, in `Prompt`.
- GenerateIdeas.DescriptionAfterHeader: stated over any header and closing
  text, like PromptFrame.
- GenerateIdeas.FilterBlockInPrompt: stated over any header and closing
  text, like PromptFrame.
- The route takes only `query`, `filters` and `mode` from the body. It
  never reads the `additionalComments` the category search sends, and the
  `context` filter, which arrives inside `filters`, reaches neither the
  prompt nor the stored rows. The model's request carries both, and
  `GenerateIdeas.PromptIgnoresContextAndComments` states that neither
  changes the prompt.
- The `CATEGORIES` constant in types/index.ts is option data for rendering
  the selector. It is not modelled as a value.
- LanguageContext.CommonBack: concrete lookups in the full English and
  Turkish tables are proved only for `common.back`. The general behaviour
  of `t` is proved for every table in the `Language` module.
- Dashboard.DashboardPage.HandleSearch: an OK reply is assumed to carry an
  `ideas` list. A reply without one would set `undefined`, and that is not
  modelled.
- Dashboard.DashboardPage.HandleCategorySubmit: the same assumption as
  HandleSearch, that an OK reply carries an `ideas` list.
- Logout, "view details" navigation, the results view's rendering and the
  page layouts are not modelled.
- History.TruthyValues: a filter value is a string or `null`. Truthy values
  of other JSON types (numbers, booleans, arrays, objects), which the source
  keeps and joins in their string form, are not represented.
- History.SearchLabel: a filter value is a string or `null`, as for
  TruthyValues, so a category entry whose only truthy values are of other
  JSON types is labelled "Category search" here, where the source labels it
  by their string form.
- History.SearchLabel: the order of the joined filter values is the order
  of the given entries. JavaScript's `Object.values` order is not modelled
  separately.
- CategorySearch.CategorySearchPage.HandleSubmit: the toasts and the
  navigation to the dashboard are not modelled. A failed history write,
  which the source only logs, is not modelled either.
