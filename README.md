# RevNews in Dafny

A model of the core of RevNews, a Next.js news reader. The reader fetches live news
from a search endpoint and layers language-model answers on top of it. Five parts are
modelled.

- **Search request** (`lib/api.ts`, `app/api/news/route.ts`). How a query and its
  options become the search endpoint's parameter list. A generic query gets a
  diversifying word appended; `count` defaults to 20; an offset is sent only when
  truthy. A non-success reply is an error. The route reads its own parameters with
  `parseInt`.
- **Chat pipeline** (`lib/ai.ts`). A keyword completion, then label stripping and
  trimming, then an optional search, context formatting, and an answer completion.
  Every failure becomes a fixed reply. The same file's interest translation, spectrum
  and single-article analysis are modelled too, also with their fallback texts.
- **Feed paginator** (`components/news/infinite-news-feed.tsx`). A class holding the
  component's state. Loading is split at its `await`. The merge drops urls already
  listed, and the offset counts every raw result.
- **Server actions and the store** (`lib/actions.ts`, `lib/auth.ts`). History,
  preferences, chat turns, the save toggle, and the credential check with
  auto-registration. They run against an in-memory store class that enforces the
  database's unique and foreign-key constraints.
- **Client views** (`components/news/chat-interface.tsx`, `app/page.tsx`,
  `components/news/bias-meter.tsx`). The chat log, with submit split at its `await`.
  The home page's choice of query and first page. The bias meter's colour, offset and
  caption.

`text.dfy` defines the JavaScript primitives the core relies on: `trim` over the
ECMAScript whitespace set, `split` and `join` on one character, ASCII case mapping,
integer `toString`, and `parseInt` without a radix. Lemmas connect these primitives
(split/join round trips, `parseInt(n.toString()) == n`, idempotent trim).

Capabilities the code calls but that are not in this repository are function
parameters:
- the search endpoint: `search: Api.Params -> Api.SearchReply`;
- the completion endpoint: `complete: Ai.Request -> Ai.Completion`;
- bcrypt: `compare` and `hash`.

Nondeterminism and the clock are parameters too:
- the buster word's random index is `buster`;
- the clock readings are `now` and `later`;
- the ISO date is `date`.

Two behaviours of the code look unintended. The model keeps both as written:

- **The feed can hold duplicate urls.** The paginator drops a page entry only when its
  url is already in the list from before the load, so a page that repeats a url
  inside itself adds it twice (`Feed.RepeatWithinPageSurvives`). Distinctness is
  preserved only when each page is itself duplicate-free (`Feed.MergeKeepsDistinct`).
- **The chat history window is the oldest ten messages, not the most recent.**
  `sendChatMessage` reads the session's messages in ascending creation order with
  `take: 10`. `Actions.LongSessionHistoryIsFixed` shows the window stops moving once a
  session holds ten messages.

The user's message is also stored before the answer is generated. Generation never
throws, because every failure becomes a reply, so every accepted turn writes both
messages.

## Model

| member | source | states |
|---|---|---|
| Api.EffectiveQuery | lib/api.ts:7-14 | the query changes exactly when it is `latest news` or `latest` (case-sensitive), and then gains one space and the picked buster word |
| Api.CaseMattersForGenericQuery | lib/api.ts:12-14 | `Latest` goes out unchanged while `latest` gets the buster word |
| Api.LatestGetsBuster | lib/api.ts:5-17 | the default query `latest` is sent as `latest <buster>` whatever the options |
| Api.SearchParams | lib/api.ts:16-21 | the parameter keys are q, count, offset (only when truthy) and freshness, in that order; each key's value is the effective query, the count or 20, the offset's text, and the freshness or `day` |
| Api.ZeroCountIsDefault | lib/api.ts:18 | a count of 0 yields the same parameters as no count, and both send `20` |
| Api.CountTwenty | lib/api.ts:18 | a count resolving to 20 is sent as the text `20` |
| Api.ZeroOffsetIsOmitted | lib/api.ts:19 | an offset of 0 yields the same parameters as no offset, and neither has an offset |
| Api.NoOffsetKey | lib/api.ts:19 | a falsy offset leaves the offset key out of the list |
| Api.NumericParamsRoundTrip | lib/api.ts:18-19 | the count and offset texts parse back to the numbers they were made from |
| Api.FetchNews | lib/api.ts:28-39 | the result is the reply body exactly when the status is 2xx and the body parses; a non-success status gives `Failed to fetch news: <statusText>` |
| Api.NonSuccessThrows | lib/api.ts:35-37 | any non-success status is an error whatever the body |
| Api.RelatedQuery | lib/api.ts:43 | the title's first eight space-separated tokens rejoined by spaces; stated by `Api.RelatedQueryTokens` and `Api.ShortTitleUnchanged` |
| Api.FetchRelatedNews | lib/api.ts:42-45 | the news search for the related query with count 8; what it sends is stated by `Api.RelatedRequest` |
| Api.RelatedQueryTokens | lib/api.ts:43 | the related query is a prefix of the title, and its own tokens are exactly the title's first min(8, n) tokens |
| Api.ShortTitleUnchanged | lib/api.ts:43 | a title with at most seven spaces is searched as it is |
| Api.RelatedRequest | lib/api.ts:42-44 | the related search asks for count `8` and freshness `day`, with no offset |
| NewsRoute.Get | app/api/news/route.ts:6-18 | status 200 with the upstream body exactly when the fetch succeeds; otherwise status 500 with `Failed to fetch news` |
| NewsRoute.MissingQueryGetsBuster | app/api/news/route.ts:8-13 | a missing or empty `q` is sent upstream as `latest <buster>` |
| NewsRoute.RouteNumbers | app/api/news/route.ts:9-10 | count and offset are `parseInt` of the parameter, or of `20` and `0` when it is missing or empty |
| NewsRoute.CountDefaults | app/api/news/route.ts:9-13 | a missing, empty, unparsable or zero count sends `20` upstream |
| NewsRoute.OffsetOmitted | app/api/news/route.ts:10-13 | a missing, empty, unparsable or zero offset sends no offset upstream |
| NewsRoute.FeedPageRequest | app/api/news/route.ts:8-13 | the feed's page request reaches the search with the same query, count `24`, and the same offset (none for 0) |
| Ai.StripLabels | lib/ai.ts:107 | label removal never lengthens the text; what it removes is stated by `Ai.NoColonUnchanged`, `Ai.LabelRemoved` and `Ai.OnePass` |
| Ai.CleanKeywords | lib/ai.ts:105-107 | the keywords come out trimmed, so trimming them again changes nothing |
| Ai.SkipsSearch | lib/ai.ts:110 | the search is skipped exactly when the upper-cased keywords are `NONE`; see `Ai.SentinelAnyCase` and `Ai.LabelledSentinelSkips` |
| Ai.KeywordsOf | lib/ai.ts:104-107 | the cleaned keywords, or nothing when the keyword reply cannot be read; see `Ai.ChatFallbacks` |
| Ai.NoColonUnchanged | lib/ai.ts:107 | label stripping leaves colon-free text unchanged |
| Ai.LabelRemoved | lib/ai.ts:107 | a leading `Keywords:`, `Search:` or `Topic:`, in any ASCII case, is removed and the scan continues after it |
| Ai.OnePass | lib/ai.ts:107 | removal is one left-to-right pass: text kept before a removed label is not joined with what follows it for a second match |
| Ai.BlankOutputSearchesDefault | lib/ai.ts:105-110 | missing or blank model output searches for `latest news`, which is not the sentinel and is a generic query |
| Ai.LabelledAnswer | lib/ai.ts:105-107 | an answer made of a label plus colon-free text yields that text, trimmed |
| Ai.LabelledSentinelSkips | lib/ai.ts:105-110 | a labelled answer whose text trims to the sentinel, such as `Keywords: NONE`, skips the search |
| Ai.SentinelAnyCase | lib/ai.ts:110 | `NONE`, `none` and `None` skip the search; `NONE.` and the empty text do not |
| Ai.ContextLine | lib/ai.ts:114 | one article's bracketed line: source, age, title and description, with `undefined` for a missing field; see `Ai.ContextHoldsEveryResult` |
| Ai.FormatContext | lib/ai.ts:114 | the article lines separated by blank lines; see `Ai.FormatContextEmpty` and `Ai.ContextHoldsEveryResult` |
| Ai.NewsContext | lib/ai.ts:109-115 | no context when the search is skipped, the formatted results otherwise, an error when the search throws; see `Ai.ContextOrMarker` |
| Ai.RecentHistory | lib/ai.ts:136 | the last min(5, n) history entries, in order |
| Ai.AnswerRequest | lib/ai.ts:118-140 | the answer-stage request; its messages are stated by `Ai.AnswerRequestShape` |
| Ai.FormatContextEmpty | lib/ai.ts:114 | the formatted context is empty exactly when there are no results |
| Ai.ContextHoldsEveryResult | lib/ai.ts:114 | every retrieved article's line, with its source, age, title and description, appears whole in the formatted context |
| Ai.ContextOrMarker | lib/ai.ts:109-115 | the context is empty when the search is skipped, and otherwise the formatted results of the day's eight-result search; the prompt falls back to the no-articles marker exactly when the search was skipped or found nothing |
| Ai.AnswerRequestShape | lib/ai.ts:126-138 | the answer request is the grounded instruction (context, or the no-articles marker when empty), then the last min(5, n) history entries in order, then the user's message |
| Ai.GenerateChatResponse | lib/ai.ts:80-148 | a chat reply is never empty |
| Ai.ChatFallbacks | lib/ai.ts:80-148 | an unreadable keyword reply, a search that throws, or an unreachable or unreadable answer all give the fixed error reply; a readable answer gives its content, or the apology when that is empty |
| Ai.SearchFailureIsErrorReply | lib/ai.ts:110-113 | a search that throws turns the whole turn into the error reply |
| Ai.SentinelMakesNoSearch | lib/ai.ts:109-115 | with sentinel keywords, the reply does not depend on the search capability at all |
| Ai.RemoveQuotes | lib/ai.ts:188 | the output has no quote characters, and a character occurs in it exactly when it occurs in the input and is not a quote |
| Ai.RemoveQuotesPieces | lib/ai.ts:188 | removal distributes over concatenation and drops a single character exactly when it is a quote, so every other character is kept, in order and with its repetitions |
| Ai.QuoteFreeUnchanged | lib/ai.ts:188 | quote-free text is left unchanged |
| Ai.InterpretNewsInterest | lib/ai.ts:150-191 | the translated query never contains a quote |
| Ai.InterestFallbacks | lib/ai.ts:150-191 | a missing key, an unreachable endpoint, a non-success status, unreadable JSON and blank output all give `latest`; otherwise the result is the trimmed output without quotes |
| Ai.QuotesOnlyGiveEmpty | lib/ai.ts:186-188 | a successful reply whose trimmed text is made only of quotes translates to the empty query, not to the `latest` fallback |
| Ai.GenerateSpectrumAnalysis | lib/ai.ts:41-78 | the spectrum text is never empty |
| Ai.SpectrumWithoutKey | lib/ai.ts:42-43 | without a key the text is `Spectrum unavailable.` and the endpoint is never consulted |
| Ai.SpectrumOfNothingStillCalls | lib/ai.ts:45-70 | an empty article list still calls the endpoint, with empty article data |
| Ai.SpectrumFallbacks | lib/ai.ts:72-77 | a non-success status, an unreachable endpoint, unreadable JSON and empty output each give their own fixed text |
| Ai.ArticleData | lib/ai.ts:45 | the articles' `- source: title` lines joined by line breaks; their shape is stated by `Ai.ArticleDataLines` |
| Ai.ArticleDataLines | lib/ai.ts:45 | when no source or title holds a line break, splitting the article data at line breaks gives back exactly one `- source: title` line per article, in order |
| Ai.GenerateAnalysis | lib/ai.ts:3-39 | the analysis text is never empty |
| Ai.AnalysisFallbacks | lib/ai.ts:3-39 | missing key, failed status (carrying the status and body), unreachable endpoint, unreadable JSON and empty output give their own texts |
| Feed.Fresh | components/news/infinite-news-feed.tsx:43-45 | no kept entry's url is in the old list, and an entry is kept exactly when it is on the page and its url is not listed |
| Feed.FreshByEntry | components/news/infinite-news-feed.tsx:43-45 | the filter distributes over concatenation and keeps a single entry exactly when its url is not listed, so the kept entries keep page order and repetitions |
| Feed.Received | components/news/infinite-news-feed.tsx:39-41 | the route's success body yields its results and the error body yields none; see `Feed.NewsFeed.LoadMore` |
| Feed.FreshDistinct | components/news/infinite-news-feed.tsx:43-45 | filtering a duplicate-free page keeps it duplicate-free |
| Feed.MergeKeepsDistinct | components/news/infinite-news-feed.tsx:41-53 | the merged list has distinct urls when both the old list and the page have |
| Feed.AllDuplicates | components/news/infinite-news-feed.tsx:47-49 | the merge adds nothing exactly when every page url is already listed |
| Feed.RepeatWithinPageSurvives | components/news/infinite-news-feed.tsx:41-53 | a page repeating a url puts both copies into the feed |
| Feed.NewsFeed.constructor | components/news/infinite-news-feed.tsx:15-18 | the initial list, its length as offset, more expected, idle |
| Feed.NewsFeed.Reset | components/news/infinite-news-feed.tsx:26-31 | a change of list or query rebuilds the whole state from the new list |
| Feed.NewsFeed.BeginLoad | components/news/infinite-news-feed.tsx:33-38 | nothing happens while loading or once exhausted; otherwise loading is set and the request for the current query, offset and page size 24 is made |
| Feed.NewsFeed.FinishLoad | components/news/infinite-news-feed.tsx:39-62 | a non-empty page appends its unseen entries and advances the offset by the raw page length; an empty or missing page, or an exception, ends the feed; loading is cleared; the offset never falls behind the list; distinct urls are kept when the page is distinct |
| Feed.NewsFeed.LoadMore | components/news/infinite-news-feed.tsx:33-63 | a whole load against the news route, with the same outcome as the route's reply |
| Feed.TwoPages | components/news/infinite-news-feed.tsx:33-63 | pages `[a, b]` then `[b, c]` give exactly `a, b, c` at offset 4 |
| Db.Oldest | lib/actions.ts:71-75 | the session's first min(take, n) messages in creation order |
| Db.Log | lib/actions.ts:71-75 | a session's messages, never more than the table holds; how the log grows is stated by `Db.LogConcat` |
| Db.LogConcat | lib/actions.ts:62-75 | the log of two batches of stored messages is the first batch's log followed by the second's, so each stored message lands at the end of its own session's log and no other |
| Db.Store.FindByEmail | lib/auth.ts:23-25 | the id of the user with this address, or none exactly when no user has it |
| Db.Store.CreateUser | lib/auth.ts:34-40 | a taken address is refused with nothing changed; otherwise the user is appended under the next id |
| Db.Store.UpdatePreferences | lib/actions.ts:33-39 | a missing user is refused; otherwise exactly that user's interest and query change |
| Db.Store.CreateHistory | lib/actions.ts:14-21 | an entry for a missing user is refused; otherwise it is appended |
| Db.Store.CreateSession | lib/actions.ts:52-58 | a session for a missing user is refused; otherwise it is appended under the next id |
| Db.Store.CreateMessage | lib/actions.ts:62-68 | a message for a missing session is refused; otherwise it is appended |
| Db.Store.DeleteSaved | lib/actions.ts:115-117 | the record under the key is removed and nothing else changes |
| Db.Store.CreateSaved | lib/actions.ts:121-130 | a duplicate key or a missing user is refused; otherwise the record is stored under the key |
| Actions.SessionTitle | lib/actions.ts:55 | the first min(50, n) characters of the message followed by `...` |
| Actions.AddToHistory | lib/actions.ts:9-25 | one entry for a signed-in, existing user; nothing without a user or on a failed write; no other table changes |
| Actions.UpdatePreferences | lib/actions.ts:27-42 | no user is `Unauthorized`; a missing user is `RecordNotFound`; otherwise the interest as typed and its translation become the user's, and no other user changes |
| Actions.SendChatMessage | lib/actions.ts:44-93 | no user is `Unauthorized`; a dangling user or session fails with nothing written; otherwise a session is created only when none is given, the user's and the assistant's messages are appended in that order, and the reply is generated from the session's oldest ten messages with the new one included |
| Actions.ShortSessionHistoryEndsWithMessage | lib/actions.ts:62-81 | for a session with at most nine messages, the history sent is the whole log, ending with the message just stored |
| Actions.LongSessionHistoryIsFixed | lib/actions.ts:71-75 | once a session holds ten messages, the history sent is always its first ten, so the new message is not among them |
| Actions.OtherSessionLog | lib/actions.ts:71-75 | a message of another session does not change this session's history |
| Actions.Toggled | lib/actions.ts:105-133 | the key flips between present and absent, and no other key changes |
| Actions.ToggleTwice | lib/actions.ts:105-133 | toggling twice restores the key's presence; it restores the whole table whenever the key was absent, and, for a present key, exactly when the stored record equals the one saved again |
| Actions.ToggleSaveArticle | lib/actions.ts:95-134 | no user is `Unauthorized`; otherwise the record is removed and `false` returned when present, or created and `true` returned when absent; a missing user's create fails with nothing changed |
| Auth.NamePart | lib/auth.ts:38 | the name is the longest prefix of the address without `@`: the whole address when it has none, else the text before the first `@` |
| Auth.NameBeforeAt | lib/auth.ts:38 | for `local@domain` with an `@`-free local part, the name is that local part |
| Auth.Authorize | lib/auth.ts:17-44 | missing credentials sign nobody in; an existing user with a non-empty password signs in exactly when the comparison succeeds; an existing user without one never does; an unknown address registers a new user with the hashed password and the name before `@`, and signs them in |
| Auth.DemoUserCannotSignIn | lib/auth.ts:27-43 | the passwordless seeded user can never sign in by credentials and is not registered again |
| Auth.Jwt | lib/auth.ts:54-59 | a sign-in puts the user's id into the token; otherwise the token is unchanged |
| Auth.SessionCallback | lib/auth.ts:48-53 | the token's subject becomes the session user's id when both exist; otherwise the session is unchanged |
| ChatClient.ChatInterface.constructor | components/news/chat-interface.tsx:16-26 | the given log and session, empty input, idle |
| ChatClient.ChatInterface.SetInput | components/news/chat-interface.tsx:24 | typing changes only the input |
| ChatClient.ChatInterface.Clear | components/news/chat-interface.tsx:79 | the clear button empties the log and keeps the session |
| ChatClient.ChatInterface.BeginSubmit | components/news/chat-interface.tsx:35-42 | blank input or a request in flight changes nothing; otherwise the untrimmed input is logged as the user's message, the box is cleared, loading is set, and the call carries that input and the current session |
| ChatClient.ChatInterface.CompleteSubmit | components/news/chat-interface.tsx:44-64 | the reply, or the fixed apology with id `error`, is logged as the assistant's; a reply's session replaces the current one only when present; loading is cleared |
| ChatClient.Ask | components/news/chat-interface.tsx:44-61 | anything the action throws, as a missing user does, becomes `Failed`; a reply always carries the session it was stored under |
| ChatClient.ChatInterface.Submit | components/news/chat-interface.tsx:35-65 | an accepted submit appends exactly the user's message and then an assistant message, and ends with empty input and loading cleared; a refused one changes neither the view's state nor the store |
| HomePage.FeedQuery | app/page.tsx:22 | the stored search query when present and non-empty, otherwise `latest news`; never empty |
| HomePage.Prefs | app/page.tsx:13-20 | the session user's record exactly when there is a session id naming a stored user |
| HomePage.AnonymousGetsDefault | app/page.tsx:13-22 | with no session the feed uses the generic default query |
| HomePage.EmptyStoredQueryFallsBack | app/page.tsx:22 | an empty stored query falls back to `latest news` |
| HomePage.InitialArticles | app/page.tsx:26-31 | the first page is the search results, or empty when the fetch throws |
| HomePage.InitialRequest | app/page.tsx:28 | the first page asks for count `30` and freshness `day`, with no offset |
| HomePage.Render | app/page.tsx:12-57 | the paginator is seeded with the chosen query and the first page under it, idle and expecting more |
| BiasMeter.Color | components/news/bias-meter.tsx:9-16 | the indicator's colour class; see `BiasMeter.NamedColoursDistinct` and `BiasMeter.OtherRatingsCentredGrey` |
| BiasMeter.Position | components/news/bias-meter.tsx:18-25 | the indicator's offset as CSS text; see `BiasMeter.PositionText` |
| BiasMeter.Label | components/news/bias-meter.tsx:46 | `Mixed / Balanced` for Mixed and the rating followed by ` Bias` otherwise; see `BiasMeter.LabelIdentifiesMixed` |
| BiasMeter.Percent | components/news/bias-meter.tsx:18-25 | the offset is a percentage between 0 and 100 |
| BiasMeter.PositionText | components/news/bias-meter.tsx:18-25 | the offset text is `0%` for Left, `100%` for Right and `50%` for everything else |
| BiasMeter.PositionsOrdered | components/news/bias-meter.tsx:18-25 | Left, Center and Right sit left to right, at the two ends and between |
| BiasMeter.OtherRatingsCentredGrey | components/news/bias-meter.tsx:9-25 | every rating but the three named ones sits in the middle and is grey |
| BiasMeter.MixedLooksUnlikeCenter | components/news/bias-meter.tsx:9-25 | Mixed shares Center's position but never its colour |
| BiasMeter.NamedColoursDistinct | components/news/bias-meter.tsx:9-16 | the three named leanings have distinct colours, none of them the fallback grey |
| BiasMeter.LabelIdentifiesMixed | components/news/bias-meter.tsx:46 | the caption reads `Mixed / Balanced` exactly for Mixed; any other caption starts with the rating |

## Left out

- The HTTP calls, response JSON parsing and `console` logging are abstracted: the search and completion endpoints are function parameters, and a reply's body is given already parsed or marked as unparsable.
- `Math.random` is abstracted: the buster word is picked by the index parameter `buster`.
- `Date.now()` and `new Date().toISOString()` are abstracted: they are the parameters `now`, `later` and `date`.
- `process.env` is abstracted: the AI key is the parameter `apiKey`, and the chat pipeline's key is not checked, as in the code. The missing-search-key warning is only a log.
- bcrypt is abstracted: hashing and comparing are the uninterpreted parameters `hash` and `compare`.
- The store stands in for Prisma in memory. Ids are table positions, not generated strings. The foreign-key and unique constraints assumed are those the code relies on; the schema is not part of this model.
- `sessionId` is modelled as an optional number. A session id given as the empty string, which `!currentSessionId` treats as absent, is therefore the same as no id.
- `revalidatePath` changes only the rendering cache, so it is not modelled.
- NextAuth's wiring (adapter, JWT strategy, cookie handling, `auth()`) is not modelled. The signed-in user reaches each action as the parameter `sessionUser`.
- Concurrency is not modelled: a double-clicked save toggle, two overlapping feed loads, and a reset arriving during a load each run one at a time.
- `encodeURIComponent` in the feed and the route's URL decoding are taken as exact inverses, so the query reaches the route unchanged.
- Case mapping covers ASCII only. `toUpperCase` and the regular expression's `i` flag also map non-ASCII letters.
- `content.slice(0, 50)` counts UTF-16 code units, while the model counts characters.
- `parseInt` and `toString` are modelled on unbounded integers. Floating-point rounding of long digit strings and exponent notation are not modelled.
- Prompt wording and the model name are not modelled. An instruction records only its stage and the variable text spliced into it.
- An article's `thumbnail` object is modelled as an optional string.
- Rendering is not modelled: the JSX of every component, the article page, its loading view, the layout and the other pages are left out. The related-article gate in the article page that decides whether to request a spectrum at all is also left out.
- The seed script is not modelled as such. Its passwordless demo user appears in `Auth.DemoUserCannotSignIn`.
- ChatClient.ChatInterface.Submit: for an accepted submit, states only that the second new message is the assistant's and that the store stays valid. The message's content and the store's new rows come from the server action, as `Actions.SendChatMessage` states.
- ChatClient.Ask: states only the failure on a missing user and the session of a reply. What the reply holds is stated by `Actions.SendChatMessage`.
