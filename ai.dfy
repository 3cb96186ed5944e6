/**
 * lib/ai.ts: what the core does around its completion calls. The completion
 * endpoint is the `complete` parameter, a function from a request to the reply
 * it gets; the news search is `Api.FetchNews` over the `search` parameter.
 * Prompt wording is not modelled: an instruction message records its stage and
 * the variable text spliced into it.
 */
module Ai {
  import opened Common
  import opened Text
  import opened Types
  import Api

  /** The five instructions the core sends, one per kind of call. */
  datatype Stage = KeywordStage | AnswerStage | InterestStage | SpectrumStage | AnalysisStage

  /** A message of a completion request: a fixed instruction with its variable parts, or a chat message. */
  datatype PromptMessage =
    | Instruction(stage: Stage, date: string, data: string)
    | Said(message: ChatMessage)

  datatype Request = Request(messages: seq<PromptMessage>, maxTokens: Option<nat>)

  /** A reply body read as JSON: `choices?.[0]?.message?.content`, or the parse error. */
  datatype Json = NotJson(error: string) | Parsed(content: Option<string>)

  /** What the completion endpoint answers: a status, the raw body and its JSON reading; or a failed fetch. */
  datatype Completion =
    | Answered(status: int, body: string, json: Json)
    | Unreachable(message: string)

  const ChatErrorReply := "I encountered an error searching for live news. Please try again."
  const ChatSorryReply := "I'm sorry, I couldn't process that news request."
  const NoArticlesMarker := "No recent articles found."
  const SearchDefault := "latest news"
  const InterestFallback := "latest"
  const NoAnalysis := "No analysis generated."

  // ---------------------------------------------------------------------------
  // Keyword cleaning

  /** The length of the `Keywords:`, `Search:` or `Topic:` label (in any ASCII case) that `s` starts with; 0 when none. */
  function LabelAt(s: string): (n: nat)
    ensures n <= |s|
    ensures n > 0 ==> s[n - 1] == ':'
  {
    if |s| >= 9 && Lower(s[..9]) == "keywords:" then 9
    else if |s| >= 7 && Lower(s[..7]) == "search:" then 7
    else if |s| >= 6 && Lower(s[..6]) == "topic:" then 6
    else 0
  }

  /** `w` is one of the three labels, in any ASCII case. */
  predicate IsLabel(w: string) {
    Lower(w) == "keywords:" || Lower(w) == "search:" || Lower(w) == "topic:"
  }

  /** `s.replace(/Keywords:|Search:|Topic:/gi, "")`: one left-to-right pass removing every label occurrence. */
  function StripLabels(s: string): (r: string)
    ensures |r| <= |s|
    decreases |s|
  {
    if s == [] then []
    else if LabelAt(s) > 0 then StripLabels(s[LabelAt(s)..])
    else [s[0]] + StripLabels(s[1..])
  }

  /** The keywords the search uses: trimmed model text (or `"latest news"` when blank), labels removed, trimmed again. */
  function CleanKeywords(content: Option<string>): (r: string)
    ensures Trim(r) == r
  {
    var raw := if content.Some? then Trim(content.value) else "";
    TrimIdempotent(StripLabels(Or(raw, SearchDefault)));
    Trim(StripLabels(Or(raw, SearchDefault)))
  }

  /** The search is skipped exactly when the keywords, upper-cased, are `NONE`. */
  predicate SkipsSearch(keywords: string) {
    Upper(keywords) == "NONE"
  }

  // ---------------------------------------------------------------------------
  // Context assembly

  /** `undefined` renders as the text "undefined". */
  function Render(field: Option<string>): string {
    if field.Some? then field.value else "undefined"
  }

  function ContextLine(r: NewsResult): string {
    "[SOURCE: " + r.source + " | DATE: " + Render(r.age) + "] " + r.title + ": " + Render(r.description)
  }

  /** The retrieved articles, one line each, separated by blank lines. */
  function FormatContext(results: seq<NewsResult>): string {
    Join(seq(|results|, i requires 0 <= i < |results| => ContextLine(results[i])), "\n\n")
  }

  /** `history.slice(-5)`. */
  function RecentHistory(history: seq<ChatMessage>): (r: seq<ChatMessage>)
    ensures |r| == Min(5, |history|)
    ensures forall i :: 0 <= i < |r| ==> r[i] == history[|history| - |r| + i]
  {
    history[|history| - Min(5, |history|)..]
  }

  function KeywordRequest(date: string, message: string): Request {
    Request([Instruction(KeywordStage, date, ""), Said(ChatMessage(User, message))], Some(20))
  }

  /** The answer-stage request: the grounded instruction, the recent history, then the user's message. */
  function AnswerRequest(date: string, newsContext: string, history: seq<ChatMessage>, message: string): Request {
    var recent := RecentHistory(history);
    Request([Instruction(AnswerStage, date, Or(newsContext, NoArticlesMarker))]
            + seq(|recent|, i requires 0 <= i < |recent| => Said(recent[i]))
            + [Said(ChatMessage(User, message))], None)
  }

  /** The keyword stage's result, `None` when reading its reply throws. */
  function KeywordsOf(reply: Completion): Option<string> {
    match reply
    case Unreachable(_) => None
    case Answered(_, _, NotJson(_)) => None
    case Answered(_, _, Parsed(content)) => Some(CleanKeywords(content))
  }

  /** The news context for the keywords: empty with no search, `Err` when the search throws. */
  function NewsContext(keywords: string, buster: nat, search: Api.Params -> Api.SearchReply): Result<string>
    requires buster < |Api.Busters|
  {
    if SkipsSearch(keywords) then Ok("")
    else match Api.FetchNews(keywords, Api.FetchOptions(Some("day"), Some(8), None), buster, search)
      case Ok(response) => Ok(FormatContext(response.results))
      case Err(e) => Err(e)
  }

  /** `generateChatResponse`: two completion calls around an optional search; every failure becomes a fixed reply. */
  function GenerateChatResponse(message: string, history: seq<ChatMessage>, date: string,
                                complete: Request -> Completion, search: Api.Params -> Api.SearchReply,
                                buster: nat): (r: string)
    requires buster < |Api.Busters|
    ensures r != ""
  {
    match KeywordsOf(complete(KeywordRequest(date, message)))
    case None => ChatErrorReply
    case Some(keywords) =>
      match NewsContext(keywords, buster, search)
      case Err(_) => ChatErrorReply
      case Ok(newsContext) =>
        match complete(AnswerRequest(date, newsContext, history, message))
        case Unreachable(_) => ChatErrorReply
        case Answered(_, _, NotJson(_)) => ChatErrorReply
        case Answered(_, _, Parsed(content)) => OrElse(content, ChatSorryReply)
  }

  // ---------------------------------------------------------------------------
  // Interest translation, spectrum and single-article analysis

  predicate IsQuote(c: char) {
    c == '"' || c == '\''
  }

  /** `s.replace(/["']/g, "")`. */
  function RemoveQuotes(s: string): (r: string)
    ensures forall i :: 0 <= i < |r| ==> !IsQuote(r[i])
    ensures forall c :: c in r <==> c in s && !IsQuote(c)
    ensures |r| <= |s|
  {
    if s == [] then [] else (if IsQuote(s[0]) then [] else [s[0]]) + RemoveQuotes(s[1..])
  }

  function InterestRequest(interest: string): Request {
    Request([Instruction(InterestStage, "", ""), Said(ChatMessage(User, interest))], Some(30))
  }

  /** `interpretNewsInterest`: the model's trimmed keywords without quotes, or `"latest"` on any failure. */
  function InterpretNewsInterest(interest: string, apiKey: Option<string>, complete: Request -> Completion): (r: string)
    ensures forall i :: 0 <= i < |r| ==> !IsQuote(r[i])
  {
    if !Present(apiKey) then InterestFallback
    else match complete(InterestRequest(interest))
      case Unreachable(_) => InterestFallback
      case Answered(status, _, json) =>
        if !Api.IsOkStatus(status) then InterestFallback
        else match json
          case NotJson(_) => InterestFallback
          case Parsed(content) =>
            RemoveQuotes(Or(if content.Some? then Trim(content.value) else "", InterestFallback))
  }

  /** `articles.map(a => "- " + a.source + ": " + a.title).join("\n")`. */
  function ArticleData(articles: seq<NewsResult>): string {
    Join(seq(|articles|, i requires 0 <= i < |articles| => "- " + articles[i].source + ": " + articles[i].title), "\n")
  }

  function SpectrumRequest(articles: seq<NewsResult>): Request {
    Request([Instruction(SpectrumStage, "", ArticleData(articles))], None)
  }

  /** `generateSpectrumAnalysis`: the model text, or the fixed text of whichever step failed. */
  function GenerateSpectrumAnalysis(articles: seq<NewsResult>, apiKey: Option<string>, complete: Request -> Completion): (r: string)
    ensures r != ""
  {
    if !Present(apiKey) then "Spectrum unavailable."
    else match complete(SpectrumRequest(articles))
      case Unreachable(_) => "Spectrum analysis failed."
      case Answered(status, _, json) =>
        if !Api.IsOkStatus(status) then "Failed to generate spectrum."
        else match json
          case NotJson(_) => "Spectrum analysis failed."
          case Parsed(content) => OrElse(content, NoAnalysis)
  }

  function AnalysisRequest(text: string): Request {
    Request([Instruction(AnalysisStage, "", text)], Some(500))
  }

  /** `generateAnalysis`: the model text, or a fixed or error-carrying message. */
  function GenerateAnalysis(text: string, apiKey: Option<string>, complete: Request -> Completion): (r: string)
    ensures r != ""
  {
    if !Present(apiKey) then "Analysis unavailable (Missing API Key)"
    else match complete(AnalysisRequest(text))
      case Unreachable(message) => "Analysis failed: " + message
      case Answered(status, body, json) =>
        if !Api.IsOkStatus(status) then "Analysis failed: " + "API Error (" + IntToString(status) + "): " + body
        else match json
          case NotJson(error) => "Analysis failed: " + error
          case Parsed(content) => OrElse(content, NoAnalysis)
  }

  // ---------------------------------------------------------------------------
  // Properties of keyword cleaning

  /** Text without a colon holds no label, so stripping leaves it as it is. */
  lemma {:induction false} NoColonUnchanged(s: string)
    requires ':' !in s
    ensures StripLabels(s) == s
  {
    if s != [] {
      NoColonUnchanged(s[1..]);
      assert s == [s[0]] + s[1..];
    }
  }

  /** A leading label, in any ASCII case, is removed and the scan goes on after it. */
  lemma LabelRemoved(w: string, t: string)
    requires IsLabel(w)
    ensures StripLabels(w + t) == StripLabels(t)
  {
    var s := w + t;
    assert s[..|w|] == w;
    assert Lower(s[..|w|])[0] == LowerChar(w[0]);
    assert LabelAt(s) == |w|;
    assert s[|w|..] == t;
  }

  /** No label starts at a character other than (either case of) `k`, `s` or `t`. */
  lemma NoLabelAt(s: string)
    requires s != []
    requires LowerChar(s[0]) != 'k' && LowerChar(s[0]) != 's' && LowerChar(s[0]) != 't'
    ensures LabelAt(s) == 0
  {
    if |s| >= 9 { assert Lower(s[..9])[0] == LowerChar(s[0]); }
    if |s| >= 7 { assert Lower(s[..7])[0] == LowerChar(s[0]); }
    if |s| >= 6 { assert Lower(s[..6])[0] == LowerChar(s[0]); }
  }

  /** A character where no label starts is kept. */
  lemma StripKeeps(s: string)
    requires s != [] && LabelAt(s) == 0
    ensures StripLabels(s) == [s[0]] + StripLabels(s[1..])
  {
  }

  /**
   * Removal is a single pass: a character kept before a label is not examined again
   * together with what follows the removed label, so the output can itself hold a label.
   */
  lemma OnePass(s: string, w: string, t: string)
    requires IsLabel(w)
    requires s != [] && LabelAt(s) == 0 && s[1..] == w + t
    ensures StripLabels(s) == [s[0]] + StripLabels(t)
  {
    StripKeeps(s);
    LabelRemoved(w, t);
  }

  lemma DefaultHasNoLabel()
    ensures StripLabels(SearchDefault) == SearchDefault
  {
    assert ':' !in SearchDefault;
    NoColonUnchanged(SearchDefault);
  }

  lemma DefaultIsTrimmed()
    ensures Trim(SearchDefault) == SearchDefault
  {
    TrimNoSpaceEnds(SearchDefault);
  }

  lemma DefaultIsNotSentinel()
    ensures !SkipsSearch(SearchDefault)
  {
    assert |Upper(SearchDefault)| == 11;
  }

  /** Blank or missing model output searches for `"latest news"`, which the search then diversifies. */
  lemma {:induction false} BlankOutputSearchesDefault(content: Option<string>)
    requires content.None? || IsBlank(content.value)
    ensures CleanKeywords(content) == SearchDefault
    ensures !SkipsSearch(CleanKeywords(content))
    ensures Api.IsGenericQuery(CleanKeywords(content))
  {
    var raw := if content.Some? then Trim(content.value) else "";
    assert raw == "";
    DefaultHasNoLabel();
    DefaultIsTrimmed();
    DefaultIsNotSentinel();
  }

  lemma LowerLetter(c: char)
    requires 'a' <= LowerChar(c) <= 'z'
    ensures !IsSpace(c)
  {
  }

  lemma LowerColon(c: char)
    requires LowerChar(c) == ':'
    ensures c == ':'
  {
  }

  /** A label is made of letters and a colon, so it starts with a non-space and ends with the colon. */
  lemma LabelEnds(w: string)
    requires IsLabel(w)
    ensures w != [] && !IsSpace(w[0]) && w[|w| - 1] == ':'
  {
    var l := Lower(w);
    assert |l| == |w| && |w| >= 6;
    assert 'a' <= l[0] <= 'z' && l[|l| - 1] == ':';
    assert l[0] == LowerChar(w[0]) && l[|w| - 1] == LowerChar(w[|w| - 1]);
    LowerLetter(w[0]);
    LowerColon(w[|w| - 1]);
  }

  /** An answer made of a label and colon-free text is judged by that text alone, trimmed. */
  lemma {:induction false} LabelledAnswer(w: string, k: string)
    requires IsLabel(w)
    requires ':' !in k && (k == [] || !IsSpace(k[|k| - 1]))
    ensures CleanKeywords(Some(w + k)) == Trim(k)
  {
    LabelEnds(w);
    var raw := w + k;
    assert raw[0] == w[0];
    assert raw[|raw| - 1] == if k == [] then w[|w| - 1] else k[|k| - 1];
    TrimNoSpaceEnds(raw);
    LabelRemoved(w, k);
    NoColonUnchanged(k);
  }

  /**
   * A labelled answer whose text after the label trims to the sentinel, such as
   * `Keywords: NONE` or `topic: none`, skips the search.
   */
  lemma LabelledSentinelSkips(w: string, k: string)
    requires IsLabel(w) && ':' !in k && k != [] && !IsSpace(k[|k| - 1])
    requires SkipsSearch(Trim(k))
    ensures SkipsSearch(CleanKeywords(Some(w + k)))
  {
    LabelledAnswer(w, k);
  }

  /** The sentinel is recognised in any ASCII case. */
  lemma SentinelAnyCase()
    ensures SkipsSearch("NONE") && SkipsSearch("none") && SkipsSearch("None")
    ensures !SkipsSearch("NONE.") && !SkipsSearch("")
  {
    assert Upper("none") == "NONE" && Upper("None") == "NONE";
  }

  // ---------------------------------------------------------------------------
  // Properties of context assembly and the chat pipeline

  lemma {:induction false} JoinNonEmpty(parts: seq<string>, sep: string)
    requires |parts| >= 1 && parts[0] != ""
    ensures Join(parts, sep) != ""
  {
    JoinPrefix(parts, 1, sep);
    assert parts[..1] == [parts[0]];
  }

  /** The formatted context is empty exactly when there are no results. */
  lemma {:induction false} FormatContextEmpty(results: seq<NewsResult>)
    ensures FormatContext(results) == "" <==> results == []
  {
    if results != [] {
      var parts := seq(|results|, i requires 0 <= i < |results| => ContextLine(results[i]));
      assert parts[0][0] == '[';
      JoinNonEmpty(parts, "\n\n");
    }
  }

  /** Each result line carries source, age, title and description in that layout, `undefined` for a missing field. */
  lemma ContextLineLayout(r: NewsResult)
    ensures ContextLine(r) == "[SOURCE: " + r.source + " | DATE: " + (if r.age.Some? then r.age.value else "undefined") + "] "
                              + r.title + ": " + (if r.description.Some? then r.description.value else "undefined")
  {
  }

  /** Every retrieved article's line, with its source, age, title and description, appears in the context at `k`. */
  lemma ContextHoldsEveryResult(results: seq<NewsResult>, i: nat) returns (k: nat)
    requires i < |results|
    ensures var c := FormatContext(results); var line := ContextLine(results[i]);
      k + |line| <= |c| && c[k..k + |line|] == line
  {
    var parts := seq(|results|, j requires 0 <= j < |results| => ContextLine(results[j]));
    k := JoinHolds(parts, i, "\n\n");
  }

  /**
   * The answer-stage messages: the grounded instruction first, then the last min(5, |history|)
   * history entries in order, then the new user message.
   */
  lemma {:induction false} AnswerRequestShape(date: string, newsContext: string, history: seq<ChatMessage>, message: string)
    ensures var m := AnswerRequest(date, newsContext, history, message).messages;
      var k := Min(5, |history|);
      && |m| == k + 2
      && m[0] == Instruction(AnswerStage, date, if newsContext == "" then NoArticlesMarker else newsContext)
      && m[k + 1] == Said(ChatMessage(User, message))
      && forall i :: 1 <= i <= k ==> m[i] == Said(history[|history| - k + i - 1])
  {
  }

  /** When the search runs and returns results, the context is their formatted lines; otherwise it is the fixed marker. */
  lemma {:induction false} ContextOrMarker(keywords: string, buster: nat, search: Api.Params -> Api.SearchReply)
    requires buster < |Api.Busters|
    requires NewsContext(keywords, buster, search).Ok?
    ensures var c := NewsContext(keywords, buster, search).value;
      var fetched := Api.FetchNews(keywords, Api.FetchOptions(Some("day"), Some(8), None), buster, search);
      && (SkipsSearch(keywords) ==> c == "")
      && (!SkipsSearch(keywords) ==> fetched.Ok? && c == FormatContext(fetched.value.results))
      && (Or(c, NoArticlesMarker) == NoArticlesMarker <==> SkipsSearch(keywords) || fetched.value.results == [])
  {
    if !SkipsSearch(keywords) {
      var fetched := Api.FetchNews(keywords, Api.FetchOptions(Some("day"), Some(8), None), buster, search);
      FormatContextEmpty(fetched.value.results);
      assert FormatContext(fetched.value.results) != NoArticlesMarker by {
        if fetched.value.results != [] {
          assert FormatContext(fetched.value.results)[0] == '[';
        }
      }
    }
  }

  /**
   * Every failure of the chat pipeline ends in the fixed error reply: an unreadable keyword
   * reply, a search that throws, or an unreadable answer reply. A readable answer yields its
   * content, or the apology when that is empty.
   */
  lemma ChatFallbacks(message: string, history: seq<ChatMessage>, date: string,
                      complete: Request -> Completion, search: Api.Params -> Api.SearchReply, buster: nat)
    requires buster < |Api.Busters|
    ensures var r := GenerateChatResponse(message, history, date, complete, search, buster);
      var kw := KeywordsOf(complete(KeywordRequest(date, message)));
      && (kw.None? ==> r == ChatErrorReply)
      && (kw.Some? && NewsContext(kw.value, buster, search).Err? ==> r == ChatErrorReply)
      && (kw.Some? && NewsContext(kw.value, buster, search).Ok? ==>
            var answer := complete(AnswerRequest(date, NewsContext(kw.value, buster, search).value, history, message));
            && (answer.Unreachable? || answer.json.NotJson? ==> r == ChatErrorReply)
            && (answer.Answered? && answer.json.Parsed? ==>
                  r == if Present(answer.json.content) then answer.json.content.value else ChatSorryReply))
  {
    var kw := KeywordsOf(complete(KeywordRequest(date, message)));
    if kw.Some? {
      var context := NewsContext(kw.value, buster, search);
      if context.Ok? {
        var answer := complete(AnswerRequest(date, context.value, history, message));
        assert answer.Answered? && answer.json.Parsed? ==>
          GenerateChatResponse(message, history, date, complete, search, buster) == OrElse(answer.json.content, ChatSorryReply);
      }
    }
  }

  /** A search that throws (a non-success status included) turns the whole turn into the error reply. */
  lemma SearchFailureIsErrorReply(message: string, history: seq<ChatMessage>, date: string,
                                  complete: Request -> Completion, search: Api.Params -> Api.SearchReply, buster: nat)
    requires buster < |Api.Busters|
    requires KeywordsOf(complete(KeywordRequest(date, message))).Some?
    requires var k := KeywordsOf(complete(KeywordRequest(date, message))).value;
      !SkipsSearch(k) && Api.FetchNews(k, Api.FetchOptions(Some("day"), Some(8), None), buster, search).Err?
    ensures GenerateChatResponse(message, history, date, complete, search, buster) == ChatErrorReply
  {
  }

  /** When the keywords are the sentinel, no search is made: the reply does not depend on the search capability. */
  lemma SentinelMakesNoSearch(message: string, history: seq<ChatMessage>, date: string,
                              complete: Request -> Completion, search1: Api.Params -> Api.SearchReply,
                              search2: Api.Params -> Api.SearchReply, buster: nat)
    requires buster < |Api.Busters|
    requires var kw := KeywordsOf(complete(KeywordRequest(date, message))); kw.Some? && SkipsSearch(kw.value)
    ensures GenerateChatResponse(message, history, date, complete, search1, buster)
         == GenerateChatResponse(message, history, date, complete, search2, buster)
  {
  }

  // ---------------------------------------------------------------------------
  // Properties of interest translation, spectrum and analysis

  /** A credential missing, an unreachable endpoint, a non-success status, unreadable JSON or blank output all give `"latest"`. */
  lemma InterestFallbacks(interest: string, apiKey: Option<string>, complete: Request -> Completion)
    ensures var r := InterpretNewsInterest(interest, apiKey, complete);
      var reply := complete(InterestRequest(interest));
      && (!Present(apiKey) ==> r == InterestFallback)
      && (Present(apiKey) && (reply.Unreachable? || !Api.IsOkStatus(reply.status) || reply.json.NotJson?) ==> r == InterestFallback)
      && (Present(apiKey) && reply.Answered? && Api.IsOkStatus(reply.status) && reply.json.Parsed? ==>
            var content := reply.json.content;
            r == if content.Some? && !IsBlank(content.value) then RemoveQuotes(Trim(content.value)) else InterestFallback)
  {
    var reply := complete(InterestRequest(interest));
    if Present(apiKey) && reply.Answered? && Api.IsOkStatus(reply.status) && reply.json.Parsed? {
      var content := reply.json.content;
      var trimmed := if content.Some? then Trim(content.value) else "";
      assert trimmed == "" <==> !(content.Some? && !IsBlank(content.value));
      if trimmed == "" {
        FallbackHasNoQuotes();
      }
    }
  }

  lemma FallbackHasNoQuotes()
    ensures RemoveQuotes(InterestFallback) == InterestFallback
  {
    assert forall c :: c in InterestFallback ==> !IsQuote(c);
    QuoteFreeUnchanged(InterestFallback);
  }

  lemma {:induction false} QuoteFreeUnchanged(s: string)
    requires forall c :: c in s ==> !IsQuote(c)
    ensures RemoveQuotes(s) == s
  {
    if s != [] {
      QuoteFreeUnchanged(s[1..]);
      assert s == [s[0]] + s[1..];
    }
  }

  /**
   * Quote removal works character by character: it distributes over concatenation, and a
   * single character is dropped exactly when it is a quote, so order and repetitions are kept.
   */
  lemma {:induction false} RemoveQuotesPieces(a: string, b: string, c: char)
    ensures RemoveQuotes(a + b) == RemoveQuotes(a) + RemoveQuotes(b)
    ensures RemoveQuotes([c]) == if IsQuote(c) then [] else [c]
  {
    RemoveQuotesConcat(a, b);
    assert [c][1..] == [];
  }

  lemma {:induction false} RemoveQuotesConcat(a: string, b: string)
    ensures RemoveQuotes(a + b) == RemoveQuotes(a) + RemoveQuotes(b)
    decreases |a|
  {
    if a == [] {
      assert a + b == b;
    } else {
      StringHeadAndTail(a, b);
      RemoveQuotesConcat(a[1..], b);
      var head := if IsQuote(a[0]) then [] else [a[0]];
      calc {
        RemoveQuotes(a + b);
        head + RemoveQuotes(a[1..] + b);
        head + (RemoveQuotes(a[1..]) + RemoveQuotes(b));
        { assert head + (RemoveQuotes(a[1..]) + RemoveQuotes(b)) == (head + RemoveQuotes(a[1..])) + RemoveQuotes(b); }
        RemoveQuotes(a) + RemoveQuotes(b);
      }
    }
  }

  lemma StringHeadAndTail(a: string, b: string)
    requires a != []
    ensures a + b != [] && (a + b)[0] == a[0] && (a + b)[1..] == a[1..] + b
  {
  }

  lemma {:induction false} AllQuotesRemoved(s: string)
    requires forall i :: 0 <= i < |s| ==> IsQuote(s[i])
    ensures RemoveQuotes(s) == []
  {
    if s != [] {
      AllQuotesRemoved(s[1..]);
    }
  }

  /** Output that trims to nothing but quotes translates to the empty query, not to the fallback. */
  lemma QuotesOnlyGiveEmpty(interest: string, apiKey: Option<string>, complete: Request -> Completion, x: string)
    requires Present(apiKey)
    requires var reply := complete(InterestRequest(interest));
      reply.Answered? && Api.IsOkStatus(reply.status) && reply.json == Parsed(Some(x))
    requires !IsBlank(x) && forall i :: 0 <= i < |Trim(x)| ==> IsQuote(Trim(x)[i])
    ensures InterpretNewsInterest(interest, apiKey, complete) == ""
  {
    AllQuotesRemoved(Trim(x));
  }

  /** Without a credential the spectrum is the fixed unavailable text and the endpoint is never used. */
  lemma SpectrumWithoutKey(articles: seq<NewsResult>, apiKey: Option<string>,
                           complete1: Request -> Completion, complete2: Request -> Completion)
    requires !Present(apiKey)
    ensures GenerateSpectrumAnalysis(articles, apiKey, complete1) == "Spectrum unavailable."
    ensures GenerateSpectrumAnalysis(articles, apiKey, complete1) == GenerateSpectrumAnalysis(articles, apiKey, complete2)
  {
  }

  /** An empty article list is not short-circuited: the endpoint is asked with empty article data. */
  lemma SpectrumOfNothingStillCalls(apiKey: Option<string>, complete: Request -> Completion)
    requires Present(apiKey)
    requires complete(Request([Instruction(SpectrumStage, "", "")], None)) == Answered(200, "", Parsed(Some("breakdown")))
    ensures GenerateSpectrumAnalysis([], apiKey, complete) == "breakdown"
  {
    assert ArticleData([]) == "";
  }

  /** The spectrum's fallback texts, each tied to the step that failed. */
  lemma SpectrumFallbacks(articles: seq<NewsResult>, apiKey: Option<string>, complete: Request -> Completion)
    requires Present(apiKey)
    ensures var r := GenerateSpectrumAnalysis(articles, apiKey, complete);
      var reply := complete(SpectrumRequest(articles));
      && (reply.Unreachable? ==> r == "Spectrum analysis failed.")
      && (reply.Answered? && !Api.IsOkStatus(reply.status) ==> r == "Failed to generate spectrum.")
      && (reply.Answered? && Api.IsOkStatus(reply.status) && reply.json.NotJson? ==> r == "Spectrum analysis failed.")
      && (reply.Answered? && Api.IsOkStatus(reply.status) && reply.json.Parsed? && !Present(reply.json.content) ==> r == NoAnalysis)
  {
  }

  /**
   * Each article becomes one `- source: title` line: when no source or title holds a line
   * break, splitting the article data at line breaks gives back exactly those lines, one per
   * article and in order.
   */
  lemma {:induction false} ArticleDataLines(articles: seq<NewsResult>)
    requires articles != []
    requires forall i :: 0 <= i < |articles| ==> '\n' !in articles[i].source && '\n' !in articles[i].title
    ensures var lines := seq(|articles|, i requires 0 <= i < |articles| => "- " + articles[i].source + ": " + articles[i].title);
      Split(ArticleData(articles), '\n') == lines
  {
    var lines := seq(|articles|, i requires 0 <= i < |articles| => "- " + articles[i].source + ": " + articles[i].title);
    forall i | 0 <= i < |lines|
      ensures '\n' !in lines[i]
    {
      assert '\n' !in "- " && '\n' !in ": ";
    }
    assert "\n" == ['\n'];
    SplitJoin(lines, '\n');
  }

  /** The analysis texts for a missing credential, a failed status, a failed fetch, unreadable JSON and empty output. */
  lemma AnalysisFallbacks(text: string, apiKey: Option<string>, complete: Request -> Completion)
    ensures var r := GenerateAnalysis(text, apiKey, complete);
      var reply := complete(AnalysisRequest(text));
      && (!Present(apiKey) ==> r == "Analysis unavailable (Missing API Key)")
      && (Present(apiKey) && reply.Answered? && !Api.IsOkStatus(reply.status) ==>
            r == "Analysis failed: API Error (" + IntToString(reply.status) + "): " + reply.body)
      && (Present(apiKey) && reply.Unreachable? ==> r == "Analysis failed: " + reply.message)
      && (Present(apiKey) && reply.Answered? && Api.IsOkStatus(reply.status) && reply.json.NotJson? ==>
            r == "Analysis failed: " + reply.json.error)
      && (Present(apiKey) && reply.Answered? && Api.IsOkStatus(reply.status) && reply.json.Parsed? && !Present(reply.json.content) ==>
            r == NoAnalysis)
  {
    var reply := complete(AnalysisRequest(text));
    if Present(apiKey) && reply.Answered? && !Api.IsOkStatus(reply.status) {
      assert "Analysis failed: " + "API Error (" == "Analysis failed: API Error (";
    }
  }
}
