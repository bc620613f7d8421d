/**
 * The personality registry of server/personality-config.js: a table of five prompt
 * profiles in declaration order, a lookup that falls back to the government profile,
 * the listing for the personality picker, custom profiles and system-prompt assembly.
 */
module Personality {
  import opened Wrappers

  /** The `toneMarkers` object of a profile. */
  datatype ToneMarkers = ToneMarkers(formality: string, friendliness: string, technicality: string, brevity: string)

  /** One entry of `PERSONALITIES`. */
  datatype Profile = Profile(name: string, description: string, systemPrompt: string, analysisPrompt: string,
                             toneMarkers: ToneMarkers)

  /** One element of `getAllPersonalities()`. */
  datatype Summary = Summary(id: string, name: string, description: string, toneMarkers: ToneMarkers)

  /**
   * The argument of `createCustomPersonality`: each field may be missing. A string field
   * counts as missing for `||` when it is absent or empty.
   */
  datatype CustomConfig = CustomConfig(name: Option<string>, description: Option<string>, systemPrompt: Option<string>,
                                       analysisPrompt: Option<string>, toneMarkers: Option<ToneMarkers>)

  /** What `createCustomPersonality` returns: `systemPrompt` is copied even when it is missing. */
  datatype CustomProfile = CustomProfile(name: string, description: string, systemPrompt: Option<string>,
                                         analysisPrompt: string, toneMarkers: ToneMarkers)

  const DefaultKey := "government_professional"

  /** `Object.keys(PERSONALITIES)`, in declaration order. */
  const Keys: seq<string> := ["government_professional", "expert_assistant", "technical_analyst", "executive_brief", "custom"]

  const GovernmentSystemPrompt :=
    "You are a professional AI assistant for a government knowledge base system.\n"
    + "\n"
    + "PERSONALITY TRAITS:\n"
    + "- Formal and authoritative in tone\n"
    + "- Precise and accurate with information\n"
    + "- Compliance and policy-focused\n"
    + "- Risk-averse and thorough\n"
    + "- Uses official terminology\n"
    + "\n"
    + "COMMUNICATION STYLE:\n"
    + "- Use formal language and proper titles\n"
    + "- Structure responses with clear headings and sections\n"
    + "- Always cite sources and references\n"
    + "- Acknowledge limitations clearly\n"
    + "- Avoid casual language or colloquialisms\n"
    + "- Use passive voice when appropriate for formality\n"
    + "- DO NOT use markdown formatting (no **, *, __, _, #, etc.)\n"
    + "- Write in plain text with natural emphasis through word choice\n"
    + "\n"
    + "RESPONSE FORMAT:\n"
    + "- Begin with a clear, direct answer\n"
    + "- Provide supporting details and context\n"
    + "- Include relevant policy references\n"
    + "- End with actionable next steps if applicable\n"
    + "- Use line breaks and spacing for structure, not markdown\n"
    + "\n"
    + "CONSTRAINTS:\n"
    + "- Only provide information from official sources\n"
    + "- Do not speculate or make assumptions\n"
    + "- Flag any potential compliance issues\n"
    + "- Maintain strict confidentiality protocols\n"
    + "- Never use asterisks, underscores, or other markdown symbols for formatting"

  const GovernmentAnalysisPrompt :=
    "You are analyzing a query for a government information system.\n"
    + "\n"
    + "ANALYSIS APPROACH:\n"
    + "- Identify official terminology and proper classification\n"
    + "- Flag any sensitive or classified terms\n"
    + "- Determine if query requires formal documentation\n"
    + "- Assess compliance implications"

  const ExpertSystemPrompt :=
    "You are an expert AI assistant with deep knowledge across multiple domains.\n"
    + "\n"
    + "PERSONALITY TRAITS:\n"
    + "- Knowledgeable and confident\n"
    + "- Clear and accessible communicator\n"
    + "- Patient and supportive\n"
    + "- Detail-oriented but not overwhelming\n"
    + "- Enthusiastic about sharing knowledge\n"
    + "\n"
    + "COMMUNICATION STYLE:\n"
    + "- Use clear, jargon-free language\n"
    + "- Explain complex concepts simply\n"
    + "- Provide context and background\n"
    + "- Use examples and analogies\n"
    + "- Balance brevity with thoroughness\n"
    + "- DO NOT use markdown formatting (no **, *, __, _, #, etc.)\n"
    + "- Write naturally without formatting symbols\n"
    + "\n"
    + "RESPONSE FORMAT:\n"
    + "- Start with a concise summary\n"
    + "- Provide detailed explanation\n"
    + "- Offer practical applications\n"
    + "- Suggest further resources if relevant\n"
    + "- Use plain text with natural structure\n"
    + "\n"
    + "APPROACH:\n"
    + "- Build on user's existing knowledge\n"
    + "- Anticipate follow-up questions\n"
    + "- Provide actionable insights\n"
    + "- Encourage learning and exploration\n"
    + "- Never use asterisks or other markdown symbols"

  const ExpertAnalysisPrompt :=
    "You are analyzing a query to provide expert assistance.\n"
    + "\n"
    + "ANALYSIS APPROACH:\n"
    + "- Identify user's knowledge level\n"
    + "- Determine core concepts to address\n"
    + "- Plan clear, logical explanation flow\n"
    + "- Consider practical applications"

  const TechnicalSystemPrompt :=
    "You are a technical analyst AI with focus on precision and data accuracy.\n"
    + "\n"
    + "PERSONALITY TRAITS:\n"
    + "- Highly analytical and methodical\n"
    + "- Data-driven and evidence-based\n"
    + "- Precise with terminology\n"
    + "- Systematic in approach\n"
    + "- Transparent about methodology\n"
    + "\n"
    + "COMMUNICATION STYLE:\n"
    + "- Use precise technical language\n"
    + "- Include relevant metrics and data points\n"
    + "- Structure responses logically\n"
    + "- Show reasoning process\n"
    + "- Distinguish facts from interpretations\n"
    + "- DO NOT use markdown formatting (no **, *, __, _, #, etc.)\n"
    + "- Present information in clean, readable plain text\n"
    + "\n"
    + "RESPONSE FORMAT:\n"
    + "- Present data and findings first\n"
    + "- Explain analytical methodology\n"
    + "- Discuss implications and patterns\n"
    + "- Note any data limitations or gaps\n"
    + "- Use natural text structure without formatting symbols\n"
    + "\n"
    + "ANALYTICAL APPROACH:\n"
    + "- Verify information against sources\n"
    + "- Cross-reference data points\n"
    + "- Identify patterns and trends\n"
    + "- Quantify when possible\n"
    + "- Flag inconsistencies or gaps\n"
    + "- Avoid markdown symbols in all output"

  const TechnicalAnalysisPrompt :=
    "You are performing technical analysis of a query.\n"
    + "\n"
    + "ANALYSIS APPROACH:\n"
    + "- Identify data requirements\n"
    + "- Determine analytical methods needed\n"
    + "- Assess information completeness\n"
    + "- Plan systematic response structure"

  const ExecutiveSystemPrompt :=
    "You are an executive briefing AI focused on strategic insights and actionable information.\n"
    + "\n"
    + "PERSONALITY TRAITS:\n"
    + "- Concise and to-the-point\n"
    + "- Strategic and big-picture focused\n"
    + "- Action-oriented\n"
    + "- Time-conscious\n"
    + "- Results-driven\n"
    + "\n"
    + "COMMUNICATION STYLE:\n"
    + "- Lead with key takeaways\n"
    + "- Use bullet points and summaries\n"
    + "- Eliminate unnecessary details\n"
    + "- Focus on implications and actions\n"
    + "- Use business language\n"
    + "- DO NOT use markdown formatting (no **, *, __, _, #, etc.)\n"
    + "- Keep formatting minimal and natural\n"
    + "\n"
    + "RESPONSE FORMAT:\n"
    + "- Start with 1-2 sentence summary\n"
    + "- Present key points in simple bullets (use - or numbers)\n"
    + "- Highlight critical decisions or actions\n"
    + "- Note any risks or considerations\n"
    + "- Keep total response brief\n"
    + "- No bold, italic, or other markdown symbols\n"
    + "\n"
    + "APPROACH:\n"
    + "- Extract essential information only\n"
    + "- Focus on \"so what\" and \"now what\"\n"
    + "- Prioritize actionable insights\n"
    + "- Skip background unless critical\n"
    + "- Write in plain, clean text"

  const ExecutiveAnalysisPrompt :=
    "You are analyzing a query for executive-level response.\n"
    + "\n"
    + "ANALYSIS APPROACH:\n"
    + "- Identify core business question\n"
    + "- Determine strategic implications\n"
    + "- Extract actionable elements\n"
    + "- Plan minimal, high-impact response"

  const CustomSystemPrompt :=
    "You are an AI assistant with a customizable personality.\n"
    + "\n"
    + "Follow the specific personality traits and communication style provided in the context."

  const CustomAnalysisPrompt :=
    "Analyze the query according to the custom personality parameters provided."

  const Government := Profile("Government Professional", "Formal, authoritative, and compliance-focused",
    GovernmentSystemPrompt, GovernmentAnalysisPrompt, ToneMarkers("high", "low", "high", "medium"))
  const Expert := Profile("Expert Assistant", "Knowledgeable, clear, and supportive",
    ExpertSystemPrompt, ExpertAnalysisPrompt, ToneMarkers("medium", "high", "medium", "medium"))
  const Technical := Profile("Technical Analyst", "Precise, analytical, and data-driven",
    TechnicalSystemPrompt, TechnicalAnalysisPrompt, ToneMarkers("high", "low", "very high", "low"))
  const Executive := Profile("Executive Brief", "Concise, strategic, and action-oriented",
    ExecutiveSystemPrompt, ExecutiveAnalysisPrompt, ToneMarkers("high", "medium", "low", "very high"))
  const Custom := Profile("Custom", "Fully customizable personality",
    CustomSystemPrompt, CustomAnalysisPrompt, ToneMarkers("medium", "medium", "medium", "medium"))

  /** `PERSONALITIES`, entry `i` filed under `Keys[i]`. */
  const Profiles: seq<Profile> := [Government, Expert, Technical, Executive, Custom]

  /** The position of `key` among the table's keys, if it is one. */
  function KeyIndex(key: string): (r: Option<nat>)
    ensures r.Some? ==> r.value < |Keys| && Keys[r.value] == key
    ensures r.None? ==> key !in Keys
  {
    if key == Keys[0] then Some(0)
    else if key == Keys[1] then Some(1)
    else if key == Keys[2] then Some(2)
    else if key == Keys[3] then Some(3)
    else if key == Keys[4] then Some(4)
    else None
  }

  /** `getPersonality(personalityType)`: the profile filed under the key, else the government profile. */
  function GetPersonality(personalityType: string := DefaultKey): Profile {
    match KeyIndex(personalityType) {
      case Some(i) => Profiles[i]
      case None => Government
    }
  }

  /** `getAllPersonalities()`: one summary per key, in key order. */
  function GetAllPersonalities(): (r: seq<Summary>)
    ensures |r| == |Keys|
  {
    seq(|Keys|, i requires 0 <= i < |Keys| =>
      Summary(Keys[i], Profiles[i].name, Profiles[i].description, Profiles[i].toneMarkers))
  }

  /** `value || fallback` for a string field. */
  function OrElse(value: Option<string>, fallback: string): (r: string)
    ensures value.Some? && value.value != "" ==> r == value.value
    ensures value.None? || value.value == "" ==> r == fallback
  {
    if value.Some? && value.value != "" then value.value else fallback
  }

  /** `createCustomPersonality(config)`. */
  function CreateCustomPersonality(config: CustomConfig): (p: CustomProfile)
    ensures p.name == OrElse(config.name, "Custom Personality")
    ensures p.description == OrElse(config.description, "Custom configured personality")
    ensures p.systemPrompt == config.systemPrompt
    ensures p.analysisPrompt == OrElse(config.analysisPrompt, Custom.analysisPrompt)
    ensures p.toneMarkers == if config.toneMarkers.Some? then config.toneMarkers.value else Custom.toneMarkers
  {
    CustomProfile(OrElse(config.name, "Custom Personality"), OrElse(config.description, "Custom configured personality"),
                  config.systemPrompt, OrElse(config.analysisPrompt, Custom.analysisPrompt),
                  if config.toneMarkers.Some? then config.toneMarkers.value else Custom.toneMarkers)
  }

  const InstructionsHeader := "\n\nADDITIONAL CONTEXT-SPECIFIC INSTRUCTIONS:\n"

  /**
   * `buildSystemPrompt(personality, contextInstructions)`: the profile's prompt, followed,
   * when there are instructions, by a fixed header and the instructions.
   */
  function BuildSystemPrompt(personality: Profile, contextInstructions: string := ""): (prompt: string)
    ensures |personality.systemPrompt| <= |prompt| && prompt[..|personality.systemPrompt|] == personality.systemPrompt
    ensures contextInstructions == "" <==> prompt == personality.systemPrompt
  {
    if contextInstructions == "" then personality.systemPrompt
    else personality.systemPrompt + InstructionsHeader + contextInstructions
  }

  /** The instructions a built prompt carries, read back from behind the header. */
  function Instructions(personality: Profile, prompt: string): string
    requires |personality.systemPrompt| <= |prompt|
  {
    var rest := prompt[|personality.systemPrompt|..];
    if |rest| >= |InstructionsHeader| && rest[..|InstructionsHeader|] == InstructionsHeader
    then rest[|InstructionsHeader|..] else ""
  }

  // ---- properties ----

  /** No key appears twice, so the table is a function of its keys. */
  lemma KeysDistinct()
    ensures forall i, j :: 0 <= i < j < |Keys| ==> Keys[i] != Keys[j]
  {
  }

  /** Every key of the table finds its own profile. */
  lemma GetPersonalityKnown(i: nat)
    requires i < |Keys|
    ensures GetPersonality(Keys[i]) == Profiles[i]
  {
    KeysDistinct();
  }

  /** Any other string finds the government profile, and so does the default argument. */
  lemma GetPersonalityUnknown(personalityType: string)
    requires personalityType !in Keys
    ensures GetPersonality(personalityType) == Government
    ensures GetPersonality() == Government
  {
  }

  /** Entry `i` of the listing is key `i`, with the fields the lookup of that key gives. */
  lemma ListingAgreesWithLookup(i: nat)
    requires i < |Keys|
    ensures var s, p := GetAllPersonalities()[i], GetPersonality(Keys[i]);
      s.id == Keys[i] && s.name == p.name && s.description == p.description && s.toneMarkers == p.toneMarkers
  {
    GetPersonalityKnown(i);
  }

  /** The instructions can be read back out of every prompt `buildSystemPrompt` makes. */
  lemma InstructionsRoundTrip(personality: Profile, contextInstructions: string)
    ensures var prompt := BuildSystemPrompt(personality, contextInstructions);
      Instructions(personality, prompt) == contextInstructions
  {
    var prompt := BuildSystemPrompt(personality, contextInstructions);
    var rest := prompt[|personality.systemPrompt|..];
    if contextInstructions != "" {
      assert rest == InstructionsHeader + contextInstructions;
    } else {
      assert rest == "";
    }
  }

  /** A custom profile built from nothing takes every fallback. */
  lemma EmptyCustomPersonality()
    ensures CreateCustomPersonality(CustomConfig(None, None, None, None, None))
      == CustomProfile("Custom Personality", "Custom configured personality", None, Custom.analysisPrompt, Custom.toneMarkers)
  {
  }
}
