/**
 * The answer pipeline of server/agent.js: a state of nine channels, the reducers that
 * merge each node's update into it, the five nodes analyze, search, generate, validate
 * and format, the route after analyze, and the driver `processQuery`.
 *
 * The chat model, `JSON.parse` of its output, the search handler and the regex
 * passes of `removeMarkdown` are parameters. A run is the fixed sequence of nodes the
 * compiled graph goes through.
 */
module Agent {
  import opened Wrappers
  import opened Strings
  import Personality
  import Markdown
  import VectorStore

  const ModelName := "llama-3.3-70b-versatile"
  const Provider := "groq"
  const DefaultTemperature: real := 0.7
  const DefaultMaxTokens := 1500

  /**
   * A chat-model reply: its `content` (None when the content is not text) and
   * `response_metadata.tokenUsage.totalTokens || 0`.
   */
  datatype Reply = Reply(content: Option<string>, tokens: nat)

  /** The fields of the parsed analysis the pipeline reads; None stands for a missing or falsy field. */
  datatype Analysis = Analysis(queryType: Option<string>, needsSearch: bool, searchTerms: Option<seq<string>>,
                               responseFormat: Option<string>)

  const DefaultAnalysis := Analysis(Some("general"), true, Some([]), Some("paragraph"))

  datatype Formatting = Formatting(hasLists: bool, hasSections: bool, wordCount: nat, characterCount: nat)

  datatype MetaValue = Number(n: int) | Flag(b: bool) | Text(s: string) | Format(f: Formatting)

  type Metadata = map<string, MetaValue>

  type Passage = VectorStore.RankedChunk

  /** The graph state. `confidence` is in tenths: 5 is the source's 0.5. */
  datatype State = State(messages: seq<Reply>, userQuery: string, searchResults: seq<Passage>, sources: seq<string>,
                         analysis: Option<Analysis>, finalAnswer: string, confidence: int, metadata: Metadata,
                         error: Option<string>)

  /** What a node returns: None for a channel it leaves out or sets to null. */
  datatype Update = Update(messages: Option<seq<Reply>>, userQuery: Option<string>, searchResults: Option<seq<Passage>>,
                           sources: Option<seq<string>>, analysis: Option<Analysis>, finalAnswer: Option<string>,
                           confidence: Option<int>, metadata: Option<Metadata>, error: Option<string>)

  const NoUpdate := Update(None, None, None, None, None, None, None, None, None)

  function OrOld<T>(y: Option<T>, x: T): T {
    if y.Some? then y.value else x
  }

  /** The channel reducers: `y ?? x` for the scalars, `x.concat(y)` for messages, `{...x, ...y}` for metadata. */
  function Merge(s: State, u: Update): State {
    State(
      if u.messages.Some? then s.messages + u.messages.value else s.messages,
      OrOld(u.userQuery, s.userQuery),
      OrOld(u.searchResults, s.searchResults),
      OrOld(u.sources, s.sources),
      if u.analysis.Some? then u.analysis else s.analysis,
      OrOld(u.finalAnswer, s.finalAnswer),
      OrOld(u.confidence, s.confidence),
      if u.metadata.Some? then s.metadata + u.metadata.value else s.metadata,
      if u.error.Some? then u.error else s.error)
  }

  /** `{...state}`: a node update that hands every channel back as it is. */
  function Spread(s: State): Update {
    Update(Some(s.messages), Some(s.userQuery), Some(s.searchResults), Some(s.sources), s.analysis,
           Some(s.finalAnswer), Some(s.confidence), Some(s.metadata), s.error)
  }

  type SearchHandler = string -> Result<SearchReply>

  /** What the search handler resolves to: `results` and `sources`, None when missing. */
  datatype SearchReply = SearchReply(results: Option<seq<Passage>>, sources: Option<seq<string>>)

  /**
   * What the nodes read from the agent: its profile, custom instructions and search
   * handler, the chat model (system prompt and user message to a reply, or the message
   * of the error it throws), `JSON.parse` and the markup passes of `removeMarkdown`.
   */
  datatype Config = Config(personality: Personality.Profile, customInstructions: string,
                           searchHandler: Option<SearchHandler>,
                           llm: (string, string) -> Result<Reply>,
                           parse: string -> Result<Analysis>,
                           markup: string -> string)

  // ---- analyze ----

  const AnalysisInstructions :=
    "\n\nAnalyze the user's query and provide:\n"
    + "1. Query type (factual, procedural, comparison, summarization, etc.)\n"
    + "2. Whether document search is needed\n"
    + "3. Key search terms if needed\n"
    + "4. Expected response format\n"
    + "\n"
    + "Respond in JSON format:\n"
    + "{\n"
    + "    \"queryType\": \"type\",\n"
    + "    \"needsSearch\": true/false,\n"
    + "    \"searchTerms\": [\"term1\", \"term2\"],\n"
    + "    \"responseFormat\": \"paragraph/bullet_points/numbered_list\"\n"
    + "}"

  function FirstIndex(s: string, c: char): (r: Option<nat>)
    ensures r.Some? ==> r.value < |s| && s[r.value] == c && forall k :: 0 <= k < r.value ==> s[k] != c
    ensures r.None? ==> forall k :: 0 <= k < |s| ==> s[k] != c
  {
    if s == [] then None
    else if s[0] == c then Some(0)
    else
      var r := FirstIndex(s[1..], c);
      if r.Some? then Some(r.value + 1) else None
  }

  function LastIndex(s: string, c: char): (r: Option<nat>)
    ensures r.Some? ==> r.value < |s| && s[r.value] == c && forall k :: r.value < k < |s| ==> s[k] != c
    ensures r.None? ==> forall k :: 0 <= k < |s| ==> s[k] != c
  {
    if s == [] then None
    else if s[|s| - 1] == c then Some(|s| - 1)
    else LastIndex(s[..|s| - 1], c)
  }

  /** `i` is the first `{` of `content`, `j` its last `}`, and `i` comes before `j`. */
  predicate GreedySpan(content: string, i: nat, j: nat) {
    i < j < |content| && content[i] == '{' && content[j] == '}'
    && (forall k :: 0 <= k < i ==> content[k] != '{') && (forall k :: j < k < |content| ==> content[k] != '}')
  }

  /**
   * `content.match(/\{[\s\S]*\}/)`: from the first `{` to the last `}`, when some `}`
   * follows some `{`.
   */
  function JsonSpan(content: string): (r: Option<string>)
    ensures r.Some? ==> exists i: nat, j: nat :: GreedySpan(content, i, j) && r.value == content[i..j + 1]
    ensures r.None? <==> forall i, j :: 0 <= i < j < |content| ==> !(content[i] == '{' && content[j] == '}')
  {
    var first, last := FirstIndex(content, '{'), LastIndex(content, '}');
    if first.Some? && last.Some? && first.value < last.value then
      assert GreedySpan(content, first.value, last.value);
      Some(content[first.value..last.value + 1])
    else None
  }

  /** The model call of analyze: the profile's analysis prompt and the instructions, then the user's query. */
  function AnalysisCall(cfg: Config, s: State): Result<Reply> {
    cfg.llm(cfg.personality.analysisPrompt + AnalysisInstructions, s.userQuery)
  }

  /** `analyzeQuery`: the analysis the model's JSON gives, the default one when there is none. */
  function AnalyzeQuery(cfg: Config, s: State): (u: Update) {
    var fallback := Spread(s).(analysis := Some(DefaultAnalysis));
    var call := AnalysisCall(cfg, s);
    if call.Failure? || call.value.content.None? then fallback
    else
      var reply := call.value;
      var span := JsonSpan(reply.content.value);
      var parsed := if span.Some? then cfg.parse(span.value) else Success(DefaultAnalysis);
      if parsed.Failure? then fallback
      else Spread(s).(analysis := Some(parsed.value), messages := Some(s.messages + [reply]),
                      metadata := Some(s.metadata["analysisTokens" := Number(reply.tokens)]))
  }

  // ---- route ----

  datatype Route = Search | Direct

  /** `shouldSearch`. */
  function ShouldSearch(s: State, hasHandler: bool): (r: Route)
    ensures r == Search <==> |s.searchResults| == 0 && s.analysis.Some? && s.analysis.value.needsSearch && hasHandler
  {
    if |s.searchResults| > 0 then Direct
    else if s.analysis.Some? && s.analysis.value.needsSearch && hasHandler then Search
    else Direct
  }

  // ---- search ----

  /** `(state.analysis?.searchTerms || [state.userQuery]).join(' ')`. */
  function SearchQuery(s: State): string {
    var terms := if s.analysis.Some? && s.analysis.value.searchTerms.Some? then s.analysis.value.searchTerms.value
                 else [s.userQuery];
    Join(terms, " ")
  }

  /** `searchDocuments`. */
  function SearchDocuments(cfg: Config, s: State): (u: Update) {
    if cfg.searchHandler.None? then Spread(s)
    else
      var found := cfg.searchHandler.value(SearchQuery(s));
      if found.Failure? then Spread(s).(searchResults := Some([]), sources := Some([]))
      else Spread(s).(searchResults := Some(found.value.results.GetOr([])),
                      sources := Some(found.value.sources.GetOr([])))
  }

  // ---- generate ----

  /** `r.text || r`: a passage with empty text joins as the object's string form. */
  function PassageText(r: Passage): (t: string)
    ensures |t| > 0
  {
    if r.text != "" then r.text else "[object Object]"
  }

  function PassageTexts(results: seq<Passage>): (r: seq<string>)
    ensures |r| == |results| && forall k :: 0 <= k < |r| ==> r[k] == PassageText(results[k])
  {
    seq(|results|, k requires 0 <= k < |results| => PassageText(results[k]))
  }

  function ContextText(results: seq<Passage>): string {
    Join(PassageTexts(results), "\n\n")
  }

  const ContextHeader := "\n=== CONTEXT FROM KNOWLEDGE BASE ===\n"
  const ContextFooter := "\n=== END CONTEXT ==="
  const NoContextNote := "\n[No specific context available - provide general guidance based on your knowledge]"

  const TaskHeader := "\n\nCRITICAL TASK INSTRUCTIONS:\n1. "
  const GroundedFirst := "Base your answer ONLY on the provided context from the knowledge base"
  const GeneralFirst := "Provide a helpful response - no specific context available"
  const GroundedSecond := "If the context does not contain sufficient information, explicitly state this"
  const GeneralSecond := "Clearly indicate you are providing general guidance"
  const TaskRules := "\n3. Do not make assumptions beyond the provided information\n"
                     + "4. Maintain consistency with your personality and communication style\n\n"

  /** The text `generateResponse` appends to the personality's system prompt. */
  function TaskInstructions(contextText: string): string {
    var hasContext := |contextText| > 0;
    TaskHeader + (if hasContext then GroundedFirst else GeneralFirst) + "\n2. "
    + (if hasContext then GroundedSecond else GeneralSecond) + TaskRules
    + (if hasContext then ContextHeader + contextText + ContextFooter else NoContextNote)
  }

  function GenerationPrompt(cfg: Config, s: State): string {
    Personality.BuildSystemPrompt(cfg.personality, cfg.customInstructions) + TaskInstructions(ContextText(s.searchResults))
  }

  function GenerationCall(cfg: Config, s: State): Result<Reply> {
    cfg.llm(GenerationPrompt(cfg, s), s.userQuery)
  }

  /** `state.metadata.analysisTokens || 0`. */
  function AnalysisTokens(m: Metadata): int {
    if "analysisTokens" in m && m["analysisTokens"].Number? then m["analysisTokens"].n else 0
  }

  const FallbackAnswer := "Unable to generate response. Please try again."
  /** What reading a non-text answer as a string throws in `validateOutput`. */
  const NotTextError := "state.finalAnswer.toLowerCase is not a function"

  /**
   * `generateResponse`. A reply whose content is not text is stored by the source and
   * makes `validateOutput`, the next node, throw; the model reports that error here.
   */
  function GenerateResponse(cfg: Config, s: State): (r: Result<Update>)
    ensures r.Failure? ==> r.error == NotTextError
    ensures r.Success? ==> r.value == Spread(s).(finalAnswer := r.value.finalAnswer, messages := r.value.messages,
                                                 metadata := r.value.metadata, error := r.value.error)
  {
    var call := GenerationCall(cfg, s);
    if call.Failure? then Success(Spread(s).(finalAnswer := Some(FallbackAnswer), error := Some(call.error)))
    else if call.value.content.None? then Failure(NotTextError)
    else
      var reply := call.value;
      Success(Spread(s).(finalAnswer := Some(reply.content.value), messages := Some(s.messages + [reply]),
                         metadata := Some(s.metadata["responseTokens" := Number(reply.tokens)]
                                                    ["totalTokens" := Number(AnalysisTokens(s.metadata) + reply.tokens)])))
  }

  // ---- validate ----

  const UncertaintyPhrases := ["not sure", "unclear", "might", "possibly", "perhaps", "i don't have", "cannot find",
                               "no information"]

  /** `uncertaintyPhrases.some(phrase => lowerAnswer.includes(phrase))`. */
  predicate Uncertain(answer: string) {
    exists k :: 0 <= k < |UncertaintyPhrases| && Includes(ToLower(answer), UncertaintyPhrases[k])
  }

  /** `queryWords.filter(word => word.length > 3 && answerWords.includes(word)).length`. */
  function Overlap(queryWords: seq<string>, answerWords: seq<string>): (n: nat)
    ensures n <= |queryWords|
  {
    if queryWords == [] then 0
    else (if |queryWords[0]| > 3 && queryWords[0] in answerWords then 1 else 0) + Overlap(queryWords[1..], answerWords)
  }

  function QueryOverlap(query: string, answer: string): nat {
    Overlap(Split(ToLower(query)), Split(ToLower(answer)))
  }

  function Clamp(c: int): (r: int)
    ensures 0 <= r <= 10
    ensures 0 <= c <= 10 ==> r == c
  {
    if c < 0 then 0 else if c > 10 then 10 else c
  }

  /**
   * The confidence in tenths: 5, plus 2 with sources, plus 1 for an answer of more than
   * 100 characters, minus 2 for an uncertainty phrase, plus 1 when more than two query
   * words of more than three characters occur among the answer's words, clamped to 0..10.
   */
  function Score(hasSources: bool, answer: string, query: string): int {
    Clamp(5 + (if hasSources then 2 else 0) + (if |answer| > 100 then 1 else 0)
          - (if Uncertain(answer) then 2 else 0) + (if QueryOverlap(query, answer) > 2 then 1 else 0))
  }

  /** The update `validateOutput` returns for a state, with its confidence and flags. */
  function Validated(s: State): Update {
    Spread(s).(confidence := Some(Score(|s.sources| > 0, s.finalAnswer, s.userQuery)),
               metadata := Some(s.metadata["validated" := Flag(true)]["uncertaintyDetected" := Flag(Uncertain(s.finalAnswer))]))
  }

  /** The `some` over the uncertainty phrases. */
  method HasUncertainty(lowerAnswer: string) returns (found: bool)
    ensures found <==> exists k :: 0 <= k < |UncertaintyPhrases| && Includes(lowerAnswer, UncertaintyPhrases[k])
  {
    found := false;
    var i := 0;
    while i < |UncertaintyPhrases| && !found
      invariant 0 <= i <= |UncertaintyPhrases|
      invariant found <==> exists k :: 0 <= k < i && Includes(lowerAnswer, UncertaintyPhrases[k])
    {
      found := Includes(lowerAnswer, UncertaintyPhrases[i]);
      i := i + 1;
    }
  }

  /** `validateOutput`: the confidence built up one adjustment at a time. */
  method ValidateOutput(s: State) returns (u: Update)
    ensures u == Validated(s)
  {
    var confidence := 5;
    if |s.sources| > 0 {
      confidence := confidence + 2;
    }
    if |s.finalAnswer| > 100 {
      confidence := confidence + 1;
    }
    var lowerAnswer := ToLower(s.finalAnswer);
    var hasUncertainty := HasUncertainty(lowerAnswer);
    if hasUncertainty {
      confidence := confidence - 2;
    }
    var overlap := Overlap(Split(ToLower(s.userQuery)), Split(lowerAnswer));
    if overlap > 2 {
      confidence := confidence + 1;
    }
    confidence := Clamp(confidence);
    u := Spread(s).(confidence := Some(confidence),
                    metadata := Some(s.metadata["validated" := Flag(true)]["uncertaintyDetected" := Flag(hasUncertainty)]));
  }

  // ---- format ----

  function FormattingOf(f: string): Formatting {
    Formatting(Markdown.HasLists(f), Markdown.HasSections(f), Markdown.WordCount(f), |f|)
  }

  /** The update `formatResponse` returns, given the markup passes. */
  function Formatted(markup: string -> string, s: State): Update {
    var f := Markdown.Formatted(s.finalAnswer, markup);
    Spread(s).(finalAnswer := Some(f), metadata := Some(s.metadata["formatting" := Format(FormattingOf(f))]))
  }

  /** `formatResponse`. */
  method FormatResponse(markup: string -> string, s: State) returns (u: Update)
    ensures u == Formatted(markup, s)
    ensures u.finalAnswer.Some? && Markdown.Clean(u.finalAnswer.value) && Markdown.SpacedStops(u.finalAnswer.value)
  {
    var formatted := Markdown.FormatAnswer(s.finalAnswer, markup);
    var formatting := Formatting(Markdown.HasLists(formatted), Markdown.HasSections(formatted),
                                 Markdown.WordCount(formatted), |formatted|);
    u := Spread(s).(finalAnswer := Some(formatted), metadata := Some(s.metadata["formatting" := Format(formatting)]));
  }

  // ---- the run ----

  datatype Node = AnalyzeNode | SearchNode | GenerateNode | ValidateNode | FormatNode

  /** The `context` argument of `processQuery`. */
  datatype Context = Context(searchResults: Option<seq<Passage>>, sources: Option<seq<string>>)

  /** What `processQuery` resolves to; `tokenCount` is absent from the error envelope. */
  datatype Response = Response(success: bool, answer: string, sources: seq<string>, confidence: int,
                               metadata: Metadata, tokenCount: Option<int>)

  const ErrorAnswer := "I encountered an error processing your request. Please try again."

  function ErrorResponse(message: string): Response {
    Response(false, ErrorAnswer, [], 0, map["error" := Text(message)], None)
  }

  /** `result.metadata.totalTokens || 0`. */
  function TotalTokens(m: Metadata): int {
    if "totalTokens" in m && m["totalTokens"].Number? then m["totalTokens"].n else 0
  }

  function SuccessResponse(s: State): Response {
    Response(true, s.finalAnswer, s.sources, s.confidence, s.metadata, Some(TotalTokens(s.metadata)))
  }

  /** The channels' defaults merged with the input `processQuery` hands to the graph. */
  function Initial(userQuery: string, context: Context, now: int): State {
    State([], userQuery, context.searchResults.GetOr([]), context.sources.GetOr([]), None, "", 5,
          map["startTime" := Number(now), "model" := Text(ModelName), "provider" := Text(Provider)], None)
  }

  /** The state after analyze, the place the route is taken. */
  function Analyzed(cfg: Config, userQuery: string, context: Context, now: int): State {
    var s := Initial(userQuery, context, now);
    Merge(s, AnalyzeQuery(cfg, s))
  }

  function RouteOf(cfg: Config, userQuery: string, context: Context, now: int): Route {
    ShouldSearch(Analyzed(cfg, userQuery, context, now), cfg.searchHandler.Some?)
  }

  /** The state generate starts from. */
  function Searched(cfg: Config, userQuery: string, context: Context, now: int): State {
    var s := Analyzed(cfg, userQuery, context, now);
    if RouteOf(cfg, userQuery, context, now) == Search then Merge(s, SearchDocuments(cfg, s)) else s
  }

  /** Validate and format after what generate returned, or the error generate's answer raises. */
  function AfterGenerate(markup: string -> string, s: State, generated: Result<Update>): Result<State> {
    if generated.Failure? then Failure(generated.error)
    else
      var s3 := Merge(s, generated.value);
      var s4 := Merge(s3, Validated(s3));
      Success(Merge(s4, Formatted(markup, s4)))
  }

  /** Generate, validate and format from the state generate starts from, or the error a node throws. */
  function Completed(cfg: Config, s: State): Result<State> {
    AfterGenerate(cfg.markup, s, GenerateResponse(cfg, s))
  }

  datatype Outcome = Outcome(response: Response, trace: seq<Node>)

  /** The nodes a run goes through: analyze, search when routed there, generate, validate, and format unless a node threw. */
  function Visited(route: Route, formatted: bool): seq<Node> {
    [AnalyzeNode] + (if route == Search then [SearchNode] else []) + [GenerateNode, ValidateNode]
    + (if formatted then [FormatNode] else [])
  }

  /** The response and the trace, from the route taken and what the last three nodes made. */
  function Finish(route: Route, done: Result<State>): Outcome {
    Outcome(if done.Failure? then ErrorResponse(done.error) else SuccessResponse(done.value), Visited(route, done.Success?))
  }

  /** One run of the graph: the response and the nodes visited, in order. */
  function Run(cfg: Config, userQuery: string, context: Context, now: int): Outcome {
    Finish(RouteOf(cfg, userQuery, context, now), Completed(cfg, Searched(cfg, userQuery, context, now)))
  }

  /** The graph's input, analyze, the route, and search when routed there. */
  method Prepare(cfg: Config, userQuery: string, context: Context, now: int) returns (state: State, route: Route)
    ensures state == Searched(cfg, userQuery, context, now) && route == RouteOf(cfg, userQuery, context, now)
  {
    state := Initial(userQuery, context, now);
    state := Merge(state, AnalyzeQuery(cfg, state));
    route := ShouldSearch(state, cfg.searchHandler.Some?);
    if route == Search {
      state := Merge(state, SearchDocuments(cfg, state));
    }
  }

  /** The nodes after the route, one after the other. */
  method Complete(cfg: Config, s: State) returns (r: Result<State>)
    ensures r == Completed(cfg, s)
  {
    var generated := GenerateResponse(cfg, s);
    if generated.Failure? {
      return Failure(generated.error);
    }
    var state := Merge(s, generated.value);
    var validated := ValidateOutput(state);
    state := Merge(state, validated);
    var formatted := FormatResponse(cfg.markup, state);
    state := Merge(state, formatted);
    r := Success(state);
  }

  /** `new DocumentAgent(apiKey, options)`'s options. */
  datatype Options = Options(personality: Option<string>, temperature: Option<real>, maxTokens: Option<int>,
                             customInstructions: Option<string>)

  class DocumentAgent {
    const llm: (string, string) -> Result<Reply>
    const parse: string -> Result<Analysis>
    const markup: string -> string
    const temperature: real
    const maxTokens: int
    var personalityType: string
    var personality: Personality.Profile
    var customInstructions: string
    var searchHandler: Option<SearchHandler>

    /** The model settings fall back on `||`: a zero or absent value takes the default. */
    constructor(llm: (string, string) -> Result<Reply>, parse: string -> Result<Analysis>, markup: string -> string,
                options: Options)
      ensures this.llm == llm && this.parse == parse && this.markup == markup
      ensures temperature == if options.temperature.Some? && options.temperature.value != 0.0
                             then options.temperature.value else DefaultTemperature
      ensures maxTokens == if options.maxTokens.Some? && options.maxTokens.value != 0
                           then options.maxTokens.value else DefaultMaxTokens
      ensures personalityType == Personality.OrElse(options.personality, Personality.DefaultKey)
      ensures personality == Personality.GetPersonality(personalityType)
      ensures customInstructions == Personality.OrElse(options.customInstructions, "")
      ensures searchHandler.None?
    {
      this.llm := llm;
      this.parse := parse;
      this.markup := markup;
      temperature := if options.temperature.Some? && options.temperature.value != 0.0
                     then options.temperature.value else DefaultTemperature;
      maxTokens := if options.maxTokens.Some? && options.maxTokens.value != 0
                   then options.maxTokens.value else DefaultMaxTokens;
      var key := Personality.OrElse(options.personality, Personality.DefaultKey);
      personalityType := key;
      personality := Personality.GetPersonality(key);
      customInstructions := Personality.OrElse(options.customInstructions, "");
      searchHandler := None;
    }

    /** `setPersonality`: the handler and the model are kept. */
    method SetPersonality(personalityType: string, customInstructions: string := "")
      modifies this
      ensures this.personalityType == personalityType && this.customInstructions == customInstructions
      ensures personality == Personality.GetPersonality(personalityType)
      ensures searchHandler == old(searchHandler)
    {
      this.personalityType := personalityType;
      personality := Personality.GetPersonality(personalityType);
      this.customInstructions := customInstructions;
    }

    /** `setSearchHandler`. */
    method SetSearchHandler(handler: SearchHandler)
      modifies this
      ensures searchHandler == Some(handler)
      ensures personalityType == old(personalityType) && personality == old(personality)
      ensures customInstructions == old(customInstructions)
    {
      searchHandler := Some(handler);
    }

    function Settings(): Config
      reads this
    {
      Config(personality, customInstructions, searchHandler, llm, parse, markup)
    }

    /** `processQuery`: the graph's nodes one after the other, the thrown error turned into the error envelope. */
    method ProcessQuery(userQuery: string, context: Context, now: int) returns (response: Response, trace: seq<Node>)
      ensures Outcome(response, trace) == Run(Settings(), userQuery, context, now)
    {
      var cfg := Settings();
      var state, route := Prepare(cfg, userQuery, context, now);
      var done := Complete(cfg, state);
      if done.Failure? {
        response := ErrorResponse(done.error);
      } else {
        response := SuccessResponse(done.value);
      }
      trace := Visited(route, done.Success?);
    }
  }

  // ---- properties ----

  /** `{...x, ...y}`: the keys of both maps, with the update's value where both have one. */
  lemma MergeMetadata(s: State, u: Update, key: string)
    requires u.metadata.Some?
    ensures key in Merge(s, u).metadata <==> key in s.metadata || key in u.metadata.value
    ensures key in u.metadata.value ==> Merge(s, u).metadata[key] == u.metadata.value[key]
    ensures key in s.metadata && key !in u.metadata.value ==> Merge(s, u).metadata[key] == s.metadata[key]
  {
  }

  /** An update that leaves every channel out changes nothing. */
  lemma MergeNothing(s: State)
    ensures Merge(s, NoUpdate) == s
  {
  }

  /**
   * A node that hands the whole state back through `...state`, as every node does,
   * keeps every channel except `messages`: the concatenating reducer doubles it.
   */
  lemma MergeSpread(s: State)
    ensures Merge(s, Spread(s)) == s.(messages := s.messages + s.messages)
  {
  }

  /** When the model call throws or its content is not text, analyze sets the default analysis and nothing else. */
  lemma AnalyzeThrows(cfg: Config, s: State)
    requires AnalysisCall(cfg, s).Failure? || AnalysisCall(cfg, s).value.content.None?
    ensures AnalyzeQuery(cfg, s) == Spread(s).(analysis := Some(DefaultAnalysis))
  {
  }

  /**
   * A text reply without a `{...}` span also gives the default analysis, but the reply is
   * appended to the messages and its token count recorded.
   */
  lemma AnalyzeWithoutJson(cfg: Config, s: State)
    requires AnalysisCall(cfg, s).Success? && AnalysisCall(cfg, s).value.content.Some?
    requires JsonSpan(AnalysisCall(cfg, s).value.content.value).None?
    ensures var reply := AnalysisCall(cfg, s).value;
      AnalyzeQuery(cfg, s) == Spread(s).(analysis := Some(DefaultAnalysis), messages := Some(s.messages + [reply]),
                                         metadata := Some(s.metadata["analysisTokens" := Number(reply.tokens)]))
  {
  }

  /** A span that parses gives the parsed analysis; one that does not parse gives the default analysis and nothing else. */
  lemma AnalyzeParsed(cfg: Config, s: State)
    requires AnalysisCall(cfg, s).Success? && AnalysisCall(cfg, s).value.content.Some?
    requires JsonSpan(AnalysisCall(cfg, s).value.content.value).Some?
    ensures var parsed := cfg.parse(JsonSpan(AnalysisCall(cfg, s).value.content.value).value);
      AnalyzeQuery(cfg, s).analysis == Some(if parsed.Success? then parsed.value else DefaultAnalysis)
    ensures var parsed := cfg.parse(JsonSpan(AnalysisCall(cfg, s).value.content.value).value);
      parsed.Failure? ==> AnalyzeQuery(cfg, s) == Spread(s).(analysis := Some(DefaultAnalysis))
  {
  }

  /** Without a handler, search hands the state back unchanged. */
  lemma SearchWithoutHandler(cfg: Config, s: State)
    requires cfg.searchHandler.None?
    ensures SearchDocuments(cfg, s) == Spread(s)
  {
  }

  /**
   * The search query is the user's query only when there are no search terms; otherwise
   * it is the terms joined by spaces, so an empty list of terms gives "".
   */
  lemma SearchQueryCases(s: State)
    ensures s.analysis.None? || s.analysis.value.searchTerms.None? ==> SearchQuery(s) == s.userQuery
    ensures s.analysis.Some? && s.analysis.value.searchTerms.Some? ==>
      SearchQuery(s) == Join(s.analysis.value.searchTerms.value, " ")
    ensures s.analysis.Some? && s.analysis.value.searchTerms == Some([]) ==> SearchQuery(s) == ""
  {
  }

  /** A handler that throws empties the results and the sources; missing fields of its reply count as empty. */
  lemma SearchOutcome(cfg: Config, s: State)
    requires cfg.searchHandler.Some?
    ensures var found := cfg.searchHandler.value(SearchQuery(s));
      var u := SearchDocuments(cfg, s);
      u.searchResults == Some(if found.Success? then found.value.results.GetOr([]) else [])
      && u.sources == Some(if found.Success? then found.value.sources.GetOr([]) else [])
      && u == Spread(s).(searchResults := u.searchResults, sources := u.sources)
  {
  }

  /** The context text is empty exactly when there is no passage: one with empty text still joins as "[object Object]". */
  lemma ContextTextEmpty(results: seq<Passage>)
    ensures |ContextText(results)| == 0 <==> |results| == 0
  {
    var texts := PassageTexts(results);
    if |texts| > 1 {
      assert ContextText(results) == texts[0] + "\n\n" + Join(texts[1..], "\n\n");
    }
  }

  /** So generate takes the no-context instructions exactly when there are no search results. */
  lemma GenerationPromptBranch(results: seq<Passage>)
    ensures TaskInstructions(ContextText(results)) ==
      if |results| > 0
      then TaskHeader + GroundedFirst + "\n2. " + GroundedSecond + TaskRules
           + (ContextHeader + ContextText(results) + ContextFooter)
      else TaskHeader + GeneralFirst + "\n2. " + GeneralSecond + TaskRules + NoContextNote
  {
    ContextTextEmpty(results);
  }

  /** A text reply becomes the answer; the total token count adds the analysis tokens (0 when absent) to the reply's. */
  lemma GenerateTokens(cfg: Config, s: State)
    requires GenerationCall(cfg, s).Success? && GenerationCall(cfg, s).value.content.Some?
    ensures var reply, r := GenerationCall(cfg, s).value, GenerateResponse(cfg, s);
      r.Success? && r.value.finalAnswer == reply.content && r.value.messages == Some(s.messages + [reply])
      && r.value.metadata.Some?
      && r.value.metadata.value["responseTokens"] == Number(reply.tokens)
      && r.value.metadata.value["totalTokens"] == Number(AnalysisTokens(s.metadata) + reply.tokens)
  {
  }

  /** When the model call throws, the answer is the fixed fallback and the error is recorded. */
  lemma GenerateThrows(cfg: Config, s: State)
    requires GenerationCall(cfg, s).Failure?
    ensures GenerateResponse(cfg, s) ==
      Success(Spread(s).(finalAnswer := Some(FallbackAnswer), error := Some(GenerationCall(cfg, s).error)))
  {
  }

  /** No clamp ever bites: the confidence lies between 0.3 and 0.9. */
  lemma ScoreRange(hasSources: bool, answer: string, query: string)
    ensures 3 <= Score(hasSources, answer, query) <= 9
  {
  }

  /** Sources add exactly 0.2. */
  lemma ScoreWithSources(answer: string, query: string)
    ensures Score(true, answer, query) == Score(false, answer, query) + 2
  {
  }

  /** "short" holds none of the uncertainty phrases. */
  lemma ShortIsCertain()
    ensures !Uncertain("short")
  {
    var lower := ToLower("short");
    assert lower == "short";
    forall k | 0 <= k < |UncertaintyPhrases| ensures !Includes(lower, UncertaintyPhrases[k]) {
      if |UncertaintyPhrases[k]| > 5 {
        IncludesShorter(lower, UncertaintyPhrases[k]);
      } else {
        assert UncertaintyPhrases[k] == "might";
        assert lower[0] == 's' && "might"[0] == 'm';
        assert !StartsWith(lower, "might");
        IncludesShorter(lower[1..], "might");
      }
    }
  }

  /** The answer "short" without sources scores 0.5, unless the query repeats "short" more than twice. */
  lemma ShortAnswerScore(query: string)
    ensures Score(false, "short", query) == if QueryOverlap(query, "short") > 2 then 6 else 5
  {
    ShortIsCertain();
  }

  function Rank(n: Node): nat {
    match n
    case AnalyzeNode => 0
    case SearchNode => 1
    case GenerateNode => 2
    case ValidateNode => 3
    case FormatNode => 4
  }

  /**
   * A run visits the nodes in graph order, each at most once: analyze, generate and
   * validate always, search exactly when routed there, format exactly when nothing threw.
   */
  lemma VisitedOrder(route: Route, formatted: bool)
    ensures var t := Visited(route, formatted);
      (forall i, j :: 0 <= i < j < |t| ==> Rank(t[i]) < Rank(t[j]))
      && AnalyzeNode in t && GenerateNode in t && ValidateNode in t
      && (SearchNode in t <==> route == Search) && (FormatNode in t <==> formatted)
  {
    var t := Visited(route, formatted);
    if route == Search && formatted {
      assert t == [AnalyzeNode, SearchNode, GenerateNode, ValidateNode, FormatNode];
    } else if route == Search {
      assert t == [AnalyzeNode, SearchNode, GenerateNode, ValidateNode];
    } else if formatted {
      assert t == [AnalyzeNode, GenerateNode, ValidateNode, FormatNode];
    } else {
      assert t == [AnalyzeNode, GenerateNode, ValidateNode];
    }
  }

  /** The trace of a run is the route's, formatted exactly when the run succeeds. */
  lemma RunTrace(cfg: Config, userQuery: string, context: Context, now: int)
    ensures var o := Run(cfg, userQuery, context, now);
      o.trace == Visited(RouteOf(cfg, userQuery, context, now), o.response.success)
  {
  }

  /** Passages handed in by the caller, or the lack of a handler, route straight to generate. */
  lemma RunSkipsSearch(cfg: Config, userQuery: string, context: Context, now: int)
    requires (context.searchResults.Some? && |context.searchResults.value| > 0) || cfg.searchHandler.None?
    ensures RouteOf(cfg, userQuery, context, now) == Direct
  {
    var s := Initial(userQuery, context, now);
    assert Analyzed(cfg, userQuery, context, now).searchResults == s.searchResults;
  }

  /** The last three nodes throw exactly when the model's answer is not text. */
  lemma CompletedFails(cfg: Config, s: State)
    ensures var done := Completed(cfg, s);
      (done.Failure? <==> GenerationCall(cfg, s).Success? && GenerationCall(cfg, s).value.content.None?)
      && (done.Failure? ==> done.error == NotTextError)
  {
  }

  /**
   * Validate and format after a generate that kept the sources: the answer is clean with
   * its stops spaced, the confidence lies between 0.3 and 0.9, and both nodes' metadata is there.
   */
  lemma AfterGenerateFacts(markup: string -> string, s: State, generated: Result<Update>)
    requires generated.Success? ==> generated.value.sources == Some(s.sources)
    ensures var done := AfterGenerate(markup, s, generated);
      done.Success? ==>
        Markdown.Clean(done.value.finalAnswer) && Markdown.SpacedStops(done.value.finalAnswer)
        && 3 <= done.value.confidence <= 9 && done.value.sources == s.sources
        && "validated" in done.value.metadata && done.value.metadata["validated"] == Flag(true)
        && "formatting" in done.value.metadata
  {
    if generated.Success? {
      var s3 := Merge(s, generated.value);
      var s4 := Merge(s3, Validated(s3));
      ScoreRange(|s3.sources| > 0, s3.finalAnswer, s3.userQuery);
      assert s4.confidence == Score(|s3.sources| > 0, s3.finalAnswer, s3.userQuery);
      assert "validated" in s4.metadata && s4.metadata["validated"] == Flag(true);
      Markdown.FormattedIsClean(s4.finalAnswer, markup);
    }
  }

  /**
   * A run fails exactly when the model's answer is not text, and then yields the error
   * envelope: the fixed answer, no sources, confidence 0, the error message and no token count.
   */
  lemma RunFailure(cfg: Config, userQuery: string, context: Context, now: int)
    ensures var s, r := Searched(cfg, userQuery, context, now), Run(cfg, userQuery, context, now).response;
      (!r.success <==> GenerationCall(cfg, s).Success? && GenerationCall(cfg, s).value.content.None?)
      && (!r.success ==> r == ErrorResponse(NotTextError))
      && (!r.success ==> r.answer == ErrorAnswer && r.sources == [] && r.confidence == 0 && r.tokenCount.None?)
  {
    CompletedFails(cfg, Searched(cfg, userQuery, context, now));
  }

  /**
   * A run that succeeds answers with clean text whose stops are spaced, the sources the
   * search left, a confidence between 0.3 and 0.9, and the validation and formatting metadata.
   */
  lemma RunSuccess(cfg: Config, userQuery: string, context: Context, now: int)
    ensures var s, r := Searched(cfg, userQuery, context, now), Run(cfg, userQuery, context, now).response;
      r.success ==>
        Markdown.Clean(r.answer) && Markdown.SpacedStops(r.answer) && r.sources == s.sources
        && 3 <= r.confidence <= 9 && "validated" in r.metadata && "formatting" in r.metadata
        && r.tokenCount == Some(TotalTokens(r.metadata))
  {
    var s := Searched(cfg, userQuery, context, now);
    AfterGenerateFacts(cfg.markup, s, GenerateResponse(cfg, s));
  }
}
