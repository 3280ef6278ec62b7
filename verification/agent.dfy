/** The agent edge function's turn logic: prompt builders, the JSON-mode
    generator call, the two generation tools and the intent router.
    The language model is an oracle: every call's reply is a parameter, and
    each function also reports the requests it would have sent. */
module Agent {
  import opened Basics
  import opened Json
  import opened JsText
  import opened Context

  const ModelClassifier: string := "gpt-4o-mini"
  const ModelJson: string := "gpt-4o-mini"
  const Assistant: string := "assistant"

  const IdeasSystem: string :=
    "You generate 10 marketing ideas. Output JSON ONLY with { items:[...] } per the requested schema."
  const ConceptSystem: string :=
    "You develop one idea into a full concept. Output JSON ONLY with the exact concept schema."
  const RouterSystem: string :=
    "You are an intent router. Do exactly ONE of:\n" +
    "- Call GenerateIdeas (if user_input looks like a brief for concepts)\n" +
    "- Call DevelopConcept (if a selected_idea is present or user asks to expand an idea)\n" +
    "- Reply with a short helpful text (no tool) for general questions/clarifications.\n" +
    "\n" +
    "Prefer DevelopConcept if selected_idea exists and no clarification is needed."

  const IdeasApology: string := "Sorry\U{2014}couldn't generate ideas. Try again."
  const ConceptApology: string := "Sorry\U{2014}couldn't develop that concept. Try again."
  const RouterApology: string := "Sorry\U{2014}something went wrong. Please try again."
  const PickAnIdea: string := "Pick an idea to develop."
  const DefaultReply: string := "How can I help with your campaign?"

  /** The output-format instructions closing the ideas prompt. */
  const IdeasSchema: string :=
    "RETURN JSON ONLY with this EXACT schema:\n" +
    "{\n" +
    "  \"items\": [\n" +
    "    {\n" +
    "      \"id\": \"string (idea_1, idea_2, ... idea_10)\",\n" +
    "      \"title\": \"string (max 8 words)\",\n" +
    "      \"summary\": \"string (40-60 words)\",\n" +
    "      \"channel\": \"string (TikTok|Instagram|Email|OOH)\",\n" +
    "      \"hook\": \"string (max 12 words)\",\n" +
    "      \"tags\": [\"string\", \"string\", \"string\"]\n" +
    "    }\n" +
    "  ]\n" +
    "}\n" +
    "\n" +
    "Rules:\n" +
    "- items MUST be an array of exactly 10 objects\n" +
    "- Each item MUST have all 6 keys: id, title, summary, channel, hook, tags\n" +
    "- title \U{2264} 8 words\n" +
    "- summary 40\U{2013}60 words\n" +
    "- hook \U{2264} 12 words\n" +
    "- channel must be one of: TikTok, Instagram, Email, OOH\n" +
    "- tags must be an array of strings\n" +
    "- Keep Product & Audience unchanged; use org voice; no discounts unless allowed"

  /** The output-format instructions of the concept prompt, up to the objective. */
  const DevelopSchema: string :=
    "TASK: Return JSON ONLY with this EXACT schema:\n" +
    "{\n" +
    "  \"title\": \"string\",\n" +
    "  \"summary\": \"string (80-120 words)\",\n" +
    "  \"channel_format\": {\n" +
    "    \"channel\": \"string (TikTok|Instagram|Email|OOH)\",\n" +
    "    \"format\": \"string (Video|Story|Reel|Post|Newsletter|Billboard)\"\n" +
    "  },\n" +
    "  \"audience_insight\": \"string\",\n" +
    "  \"key_message\": \"string\",\n" +
    "  \"rtbs\": [\"string\", \"string\"],\n" +
    "  \"beats\": [\"string\", \"string\", \"string\"],\n" +
    "  \"hook\": \"string\",\n" +
    "  \"cta\": \"string\",\n" +
    "  \"kpi\": {\n" +
    "    \"primary\": \"string\",\n" +
    "    \"target\": \"string\"\n" +
    "  },\n" +
    "  \"copy_examples\": {\n" +
    "    \"headline\": \"string\",\n" +
    "    \"caption\": \"string\",\n" +
    "    \"alt_caption\": \"string\"\n" +
    "  },\n" +
    "  \"assets\": [\"string\"],\n" +
    "  \"production_notes\": \"string\",\n" +
    "  \"compliance\": \"string\"\n" +
    "}\n" +
    "\n" +
    "Rules:\n" +
    "- channel_format MUST be an object with exactly two keys: \"channel\" and \"format\"\n" +
    "- rtbs MUST be an array of exactly 2 strings\n" +
    "- beats MUST be an array of 3-5 strings\n" +
    "- Keep Product & Audience unchanged\n" +
    "- Summary 80\U{2013}120 words\n" +
    "- Map CTA/KPI to objective: "

  /** `JSON.stringify`, which the model does not re-implement. */
  datatype Encoder = Encoder(context: SessionContext -> string, idea: IdeaListItem -> string)

  datatype Usage = Usage(promptTokens: Option<int>, completionTokens: Option<int>)

  datatype Meta = Meta(model: string, promptTokens: Option<int>, completionTokens: Option<int>)

  /** The three payloads an agent message can carry. Idea lists and concepts are
      whatever JSON the model produced: the code casts without checking. */
  datatype Content = Text(text: string) | IdeaList(items: Json) | Concept(concept: Json)

  datatype AgentMessage = AgentMessage(role: string, content: Content, meta: Option<Meta>) {

    /** The `type` tag stored beside the content. */
    function Type(): string {
      match content
      case Text(_) => "text"
      case IdeaList(_) => "idea_list"
      case Concept(_) => "concept"
    }
  }

  function TextMessage(text: string): AgentMessage {
    AgentMessage(Assistant, Text(text), None)
  }

  /** The system instruction of a model request, by the caller that sends it. */
  datatype Instructions = IdeasInstructions | ConceptInstructions | RouterInstructions
  {
    /** The instruction's text. */
    function Text(): string {
      match this
      case IdeasInstructions => IdeasSystem
      case ConceptInstructions => ConceptSystem
      case RouterInstructions => RouterSystem
    }
  }

  /** A request sent to the language model: a tool-choice classification or a
      JSON-mode generation, each with its system instruction and the prompt
      whose rendering is the user instruction. */
  datatype ModelCall = ClassifierCall(system: Instructions, user: Prompt) | JsonCall(system: Instructions, user: Prompt)

  /** What `JSON.parse` makes of a reply's text. */
  datatype ParsedText = Unparseable | Parsed(value: Json)

  /** The JSON-mode completion: it throws, or returns the first choice's message
      content (None when absent or null) and the usage counters. */
  datatype ModelReply = ReplyRaised | Replied(content: Option<ParsedText>, usage: Option<Usage>)

  datatype JsonResult = JsonResult(data: Json, usage: Option<Usage>)

  /** `callJson`: an absent content reads as `"{}"`; text that does not parse
      raises, like a failed request. */
  function CallJson(reply: ModelReply): (r: Try<JsonResult>)
    ensures r.Raised? <==> reply.ReplyRaised? || reply.content == Some(Unparseable)
    ensures r.Returned? ==> r.value.usage == reply.usage
    ensures reply.Replied? && reply.content.None? ==> r.Returned? && r.value.data == EmptyObject
    ensures reply.Replied? && reply.content.Some? && reply.content.value.Parsed? ==>
              r.Returned? && r.value.data == reply.content.value.value
  {
    match reply
    case ReplyRaised => Raised
    case Replied(content, usage) =>
      match content.GetOr(Parsed(EmptyObject))
      case Unparseable => Raised
      case Parsed(v) => Returned(JsonResult(v, usage))
  }

  /** The `meta` of a generated message: the JSON model and the usage counters
      when the reply had them. */
  function MetaOf(usage: Option<Usage>): (m: Meta)
    ensures m.model == ModelJson
    ensures usage.None? ==> m.promptTokens.None? && m.completionTokens.None?
    ensures usage.Some? ==> m.promptTokens == usage.value.promptTokens && m.completionTokens == usage.value.completionTokens
  {
    match usage
    case None => Meta(ModelJson, None, None)
    case Some(u) => Meta(ModelJson, u.promptTokens, u.completionTokens)
  }

  /** The context lines at the head of the ideas prompt. */
  function IdeasContextBlock(ctx: SessionContext): (r: string)
    ensures |r| > 0 && r[0] == 'O'
    ensures |r| >= 5 && r[..5] == "ORG: "
  {
    "ORG: " + ctx.organization.name + " \U{2014} " + ctx.organization.description + "\n" +
    "PRODUCT: " + ctx.product.name + " \U{2014} " + ctx.product.description + "\n" +
    "AUDIENCE: " + ctx.audience.name + " (" + ctx.audience.ageRange + ", " + ctx.audience.location + ")\n" +
    "INTERESTS: " + Join(ctx.audience.interests, ", ") + " | TONE: " + ctx.audience.tone + "\n" +
    "OBJECTIVE: " + ObjectiveName(ctx.objective)
  }

  /** The ideas template between its framing newlines. */
  function IdeasText(ctx: SessionContext, userInput: string): string {
    IdeasContextBlock(ctx) + ("\n\nUSER PROMPT:\n" + userInput + "\n\n") + IdeasSchema
  }

  /** `buildIdeasPrompt`: the template literal, trimmed. The trim only removes
      the template's framing newlines: every context field and the user's text
      reach the model verbatim, whatever white space they carry. */
  function BuildIdeasPrompt(ctx: SessionContext, userInput: string): (r: string)
    ensures r == IdeasText(ctx, userInput)
  {
    IdeasTextEnds(ctx, userInput);
    TrimFramed(IdeasText(ctx, userInput));
    Trim("\n" + IdeasText(ctx, userInput) + "\n")
  }

  lemma IdeasTextEnds(ctx: SessionContext, userInput: string)
    ensures SolidEnds(IdeasText(ctx, userInput))
  {
    IdeasSchemaEnd();
    NonWhiteEnds(IdeasContextBlock(ctx), "\n\nUSER PROMPT:\n" + userInput + "\n\n", IdeasSchema);
  }

  lemma IdeasSchemaEnd()
    ensures |IdeasSchema| > 0 && !IsWhite(IdeasSchema[|IdeasSchema| - 1])
  {
    assert IdeasSchema[|IdeasSchema| - 1] == 'd';
  }

  /** The concept template between its framing newlines. */
  function DevelopText(contextJson: string, ideaJson: string, objective: Objective): string {
    "CONTEXT:\n" + (contextJson + "\n\nSELECTED_IDEA:\n" + ideaJson + "\n\n" + DevelopSchema) + ObjectiveName(objective)
  }

  /** `buildDevelopPrompt`, given the `JSON.stringify` of the context and of the
      idea: the template literal, trimmed. The trim only removes the framing
      newlines, so the serialized context and idea are kept verbatim and the
      prompt ends with the session's objective. */
  function BuildDevelopPrompt(contextJson: string, ideaJson: string, objective: Objective): (r: string)
    ensures r == DevelopText(contextJson, ideaJson, objective)
  {
    DevelopTextEnds(contextJson, ideaJson, objective);
    TrimFramed(DevelopText(contextJson, ideaJson, objective));
    Trim("\n" + DevelopText(contextJson, ideaJson, objective) + "\n")
  }

  lemma DevelopTextEnds(contextJson: string, ideaJson: string, objective: Objective)
    ensures SolidEnds(DevelopText(contextJson, ideaJson, objective))
    ensures var o := ObjectiveName(objective);
            Bracketed(DevelopText(contextJson, ideaJson, objective), "CONTEXT:\n", o[|o| - 1])
  {
    NonWhiteEnds("CONTEXT:\n", contextJson + "\n\nSELECTED_IDEA:\n" + ideaJson + "\n\n" + DevelopSchema, ObjectiveName(objective));
    Ends("CONTEXT:\n", contextJson + "\n\nSELECTED_IDEA:\n" + ideaJson + "\n\n" + DevelopSchema, ObjectiveName(objective));
  }

  /** The classifier template between its framing newlines; "none" stands in
      for a missing idea. */
  function ClassifierText(contextJson: string, ideaJson: Option<string>, userInput: string): string {
    "CONTEXT: " + (contextJson + "\nSELECTED_IDEA: " + ideaJson.GetOr("none") + "\nUSER_INPUT: ") + userInput
  }

  /** The classifier's user instruction, given the `JSON.stringify` of the
      context and of the selected idea (None when there is none): the template
      literal, trimmed. When the user's text ends in a non-white character,
      the trim only removes the framing newlines. */
  function BuildClassifierPrompt(contextJson: string, ideaJson: Option<string>, userInput: string): (r: string)
    ensures |userInput| > 0 && !IsWhite(userInput[|userInput| - 1]) ==>
              r == ClassifierText(contextJson, ideaJson, userInput)
  {
    if |userInput| > 0 && !IsWhite(userInput[|userInput| - 1]) then
      NonWhiteEnds("CONTEXT: ", contextJson + "\nSELECTED_IDEA: " + ideaJson.GetOr("none") + "\nUSER_INPUT: ", userInput);
      TrimFramed(ClassifierText(contextJson, ideaJson, userInput));
      Trim("\n" + ClassifierText(contextJson, ideaJson, userInput) + "\n")
    else
      Trim("\n" + ClassifierText(contextJson, ideaJson, userInput) + "\n")
  }

  /** The instruction pair of a model request, by the builder that renders it. */
  datatype Prompt =
    | IdeasPrompt(ctx: SessionContext, userInput: string)
    | DevelopPrompt(contextJson: string, ideaJson: string, objective: Objective)
    | ClassifierPrompt(contextJson: string, selectedJson: Option<string>, userInput: string)
  {
    /** The user instruction's text. */
    function Render(): string {
      match this
      case IdeasPrompt(ctx, u) => BuildIdeasPrompt(ctx, u)
      case DevelopPrompt(c, i, o) => BuildDevelopPrompt(c, i, o)
      case ClassifierPrompt(c, i, u) => BuildClassifierPrompt(c, i, u)
    }
  }

  /** One tool invocation: the message it returns and the request it sent. */
  datatype ToolRun = ToolRun(message: AgentMessage, call: ModelCall)

  /** A reply from which `callJson` returns `null`. */
  predicate RepliesNull(reply: ModelReply) {
    reply.Replied? && reply.content == Some(Parsed(JNull))
  }

  /** `toolGenerateIdeas`: the reply's `items` when truthy, else an empty list;
      any exception (failed request, unparseable text, `null.items`) becomes a
      fixed apology without meta. */
  function ToolGenerateIdeas(ctx: SessionContext, userInput: string, reply: ModelReply): (r: ToolRun)
    ensures r.call == JsonCall(IdeasInstructions, IdeasPrompt(ctx, userInput))
    ensures r.message.role == Assistant
    ensures r.message.content.IdeaList? || r.message == TextMessage(IdeasApology)
    ensures r.message.content.IdeaList? <==> CallJson(reply).Returned? && !RepliesNull(reply)
    ensures r.message.content.IdeaList? ==> r.message.meta == Some(MetaOf(reply.usage))
    ensures reply.Replied? && reply.content.None? ==> r.message.content == IdeaList(JArr([]))
    ensures reply.Replied? && reply.content.Some? && reply.content.value.Parsed?
              && reply.content.value.value.JObj? ==>
              var fields := reply.content.value.value.fields;
              r.message.content == IdeaList(if "items" in fields && Truthy(fields["items"]) then fields["items"] else JArr([]))
    ensures reply.Replied? && reply.content.Some? && reply.content.value.Parsed?
              && !reply.content.value.value.JObj? && !reply.content.value.value.JNull? ==>
              r.message.content == IdeaList(JArr([]))
  {
    var call := JsonCall(IdeasInstructions, IdeasPrompt(ctx, userInput));
    match CallJson(reply)
    case Raised => ToolRun(TextMessage(IdeasApology), call)
    case Returned(res) =>
      match Get(res.data, "items")
      case Raised => ToolRun(TextMessage(IdeasApology), call)
      case Returned(items) =>
        ToolRun(AgentMessage(Assistant, IdeaList(Or(items, JArr([]))), Some(MetaOf(res.usage))), call)
  }

  /** `toolDevelopConcept`: the parsed reply, whatever its shape, becomes the
      concept; any exception becomes a fixed apology without meta. */
  function ToolDevelopConcept(enc: Encoder, ctx: SessionContext, idea: IdeaListItem, reply: ModelReply): (r: ToolRun)
    ensures r.call == JsonCall(ConceptInstructions, DevelopPrompt(enc.context(ctx), enc.idea(idea), ctx.objective))
    ensures r.message.role == Assistant
    ensures r.message.content.Concept? || r.message == TextMessage(ConceptApology)
    ensures r.message.content.Concept? <==> CallJson(reply).Returned?
    ensures r.message.content.Concept? ==> r.message.meta == Some(MetaOf(reply.usage))
    ensures reply.Replied? && reply.content.None? ==> r.message.content == Concept(EmptyObject)
    ensures reply.Replied? && reply.content.Some? && reply.content.value.Parsed? ==>
              r.message.content == Concept(reply.content.value.value)
  {
    var call := JsonCall(ConceptInstructions, DevelopPrompt(enc.context(ctx), enc.idea(idea), ctx.objective));
    match CallJson(reply)
    case Raised => ToolRun(TextMessage(ConceptApology), call)
    case Returned(res) => ToolRun(AgentMessage(Assistant, Concept(res.data), Some(MetaOf(res.usage))), call)
  }

  /** Nothing checks the concept's shape: an empty object from the model is
      returned as the concept, without a title, hook or KPI. */
  lemma EmptyConceptPassesThrough(enc: Encoder, ctx: SessionContext, idea: IdeaListItem)
    ensures var m := ToolDevelopConcept(enc, ctx, idea, Replied(Some(Parsed(EmptyObject)), None)).message;
            m.Type() == "concept" && m.content.concept.JObj? && "title" !in m.content.concept.fields
  {
  }

  datatype AutoAgentArgs = AutoAgentArgs(context: SessionContext, userInput: string, selectedIdea: Option<IdeaListItem>)

  /** One choice of the classifier: the names of its tool calls, in order, and
      its text content (None when absent or null). */
  datatype Choice = Choice(toolCalls: seq<string>, content: Option<string>)

  /** The tool-choice completion: it throws, or returns its choices. */
  datatype ClassifierReply = ClassifierRaised | Classified(choices: seq<Choice>)

  /** The name of `choices[0].message.tool_calls[0]`, when there is one. */
  function FirstToolCall(cls: ClassifierReply): (r: Option<string>)
    ensures r.Some? <==> cls.Classified? && |cls.choices| > 0 && |cls.choices[0].toolCalls| > 0
    ensures r.Some? ==> r.value == cls.choices[0].toolCalls[0]
  {
    if cls.Classified? && |cls.choices| > 0 && |cls.choices[0].toolCalls| > 0
    then Some(cls.choices[0].toolCalls[0])
    else None
  }

  /** `choices[0].message.content`, when there is one. */
  function FirstContent(cls: ClassifierReply): Option<string> {
    if cls.Classified? && |cls.choices| > 0 then cls.choices[0].content else None
  }

  /** `(content || DefaultReply).trim()`: only an absent or empty content falls
      back; a white-space content is truthy and trims to the empty string. */
  function ReplyText(content: Option<string>): (r: string)
    ensures content.None? || content.value == [] ==> r == DefaultReply
    ensures content.Some? && content.value != [] ==> r == Trim(content.value)
  {
    if content.Some? && content.value != [] then Trim(content.value)
    else
      assert DefaultReply[0] == 'H' && DefaultReply[|DefaultReply| - 1] == '?';
      TrimKeeps(DefaultReply);
      Trim(DefaultReply)
  }

  /** The router's state after classification. */
  datatype Decision =
    | Failed                              // the classifier call raised
    | Answer(text: string)                // no tool call: reply with text
    | Overridden                          // DevelopConcept chosen without an idea
    | GenerateIdeas                       // any other tool name
    | DevelopConcept(idea: IdeaListItem)  // DevelopConcept with the selected idea

  /** The dispatch of `autoAgent`: only the first choice's first tool call
      counts, and DevelopConcept is only reached with a selected idea. */
  function Decide(selected: Option<IdeaListItem>, cls: ClassifierReply): (d: Decision)
    ensures d.Failed? <==> cls.ClassifierRaised?
    ensures d.Answer? <==> cls.Classified? && FirstToolCall(cls).None?
    ensures d.DevelopConcept? ==> selected == Some(d.idea) && FirstToolCall(cls) == Some("DevelopConcept")
    ensures d.Overridden? <==> selected.None? && FirstToolCall(cls) == Some("DevelopConcept")
    ensures d.GenerateIdeas? <==> FirstToolCall(cls).Some? && FirstToolCall(cls) != Some("DevelopConcept")
  {
    match cls
    case ClassifierRaised => Failed
    case Classified(_) =>
      match FirstToolCall(cls)
      case None => Answer(ReplyText(FirstContent(cls)))
      case Some(name) =>
        if name == "DevelopConcept" then
          match selected
          case None => Overridden
          case Some(idea) => DevelopConcept(idea)
        else GenerateIdeas
  }

  /** The user instruction given to the classifier. */
  function RouterPrompt(enc: Encoder, args: AutoAgentArgs): Prompt {
    var idea := match args.selectedIdea
      case Some(i) => Some(enc.idea(i))
      case None => None;
    ClassifierPrompt(enc.context(args.context), idea, args.userInput)
  }

  /** The outcome of one turn: the message and the model requests, in order. */
  datatype Turn = Turn(message: AgentMessage, calls: seq<ModelCall>)

  /** `autoAgent`: classify once, then reply, override or run one tool. It never
      raises, always answers as the assistant, and sends at most one generation
      request after the classification. */
  function AutoAgent(enc: Encoder, args: AutoAgentArgs, cls: ClassifierReply, gen: ModelReply): (t: Turn)
    ensures t.message.role == Assistant
    ensures 1 <= |t.calls| <= 2
    ensures t.calls[0] == ClassifierCall(RouterInstructions, RouterPrompt(enc, args))
    ensures |t.calls| == 2 <==> FirstToolCall(cls).Some? && (args.selectedIdea.Some? || FirstToolCall(cls) != Some("DevelopConcept"))
    ensures cls.ClassifierRaised? ==> t.message == TextMessage(RouterApology)
  {
    var classify := ClassifierCall(RouterInstructions, RouterPrompt(enc, args));
    match Decide(args.selectedIdea, cls)
    case Failed => Turn(TextMessage(RouterApology), [classify])
    case Answer(text) => Turn(TextMessage(text), [classify])
    case Overridden => Turn(TextMessage(PickAnIdea), [classify])
    case GenerateIdeas =>
      var run := ToolGenerateIdeas(args.context, args.userInput, gen);
      Turn(run.message, [classify, run.call])
    case DevelopConcept(idea) =>
      var run := ToolDevelopConcept(enc, args.context, idea, gen);
      Turn(run.message, [classify, run.call])
  }

  /** DevelopConcept chosen without a selected idea: the reply asks for one and
      the concept tool is never invoked. */
  lemma DevelopWithoutIdea(enc: Encoder, args: AutoAgentArgs, cls: ClassifierReply, gen: ModelReply)
    requires FirstToolCall(cls) == Some("DevelopConcept") && args.selectedIdea.None?
    ensures AutoAgent(enc, args, cls, gen).message == TextMessage(PickAnIdea)
    ensures forall c <- AutoAgent(enc, args, cls, gen).calls :: !c.JsonCall?
  {
  }

  /** DevelopConcept chosen with a selected idea: the turn is exactly the
      concept tool's run on that idea. */
  lemma DevelopWithIdea(enc: Encoder, args: AutoAgentArgs, cls: ClassifierReply, gen: ModelReply)
    requires FirstToolCall(cls) == Some("DevelopConcept") && args.selectedIdea.Some?
    ensures var run := ToolDevelopConcept(enc, args.context, args.selectedIdea.value, gen);
            var t := AutoAgent(enc, args, cls, gen);
            t.message == run.message && t.calls[1] == run.call
  {
  }

  /** Any other first tool name, including one the router never declared,
      runs the ideas tool on the user's text. */
  lemma OtherToolGeneratesIdeas(enc: Encoder, args: AutoAgentArgs, cls: ClassifierReply, gen: ModelReply)
    requires FirstToolCall(cls).Some? && FirstToolCall(cls) != Some("DevelopConcept")
    ensures var run := ToolGenerateIdeas(args.context, args.userInput, gen);
            var t := AutoAgent(enc, args, cls, gen);
            t.message == run.message && t.calls[1] == run.call
  {
  }

  /** Without a tool call the reply is the trimmed content, or the default
      question when the content is absent or empty. */
  lemma NoToolCallReplies(enc: Encoder, args: AutoAgentArgs, cls: ClassifierReply, gen: ModelReply)
    requires cls.Classified? && FirstToolCall(cls).None?
    ensures var m := AutoAgent(enc, args, cls, gen).message;
            m.meta.None? && m.content.Text? &&
            (FirstContent(cls).None? || FirstContent(cls).value == [] ==> m.content.text == DefaultReply) &&
            (FirstContent(cls).Some? && FirstContent(cls).value != [] ==> m.content.text == Trim(FirstContent(cls).value))
  {
  }

  /** A content made only of white space is not replaced by the default: the
      reply is the empty string. */
  lemma WhiteContentRepliesEmpty(enc: Encoder, args: AutoAgentArgs, content: string, gen: ModelReply)
    requires content != [] && AllWhite(content)
    ensures AutoAgent(enc, args, Classified([Choice([], Some(content))]), gen).message.content == Text([])
  {
  }

  /** Every way a turn can end: one of the three fixed texts, the classifier's
      reply, an idea list, or a concept. The turn never raises. */
  lemma TurnOutcomes(enc: Encoder, args: AutoAgentArgs, cls: ClassifierReply, gen: ModelReply)
    ensures var m := AutoAgent(enc, args, cls, gen).message;
            m.content.IdeaList? ==> |AutoAgent(enc, args, cls, gen).calls| == 2 && m.meta.Some? && m.meta.value.model == ModelJson
    ensures var m := AutoAgent(enc, args, cls, gen).message;
            m.content.Concept? ==> args.selectedIdea.Some? && FirstToolCall(cls) == Some("DevelopConcept")
  {
  }

  /** With a selected idea, DevelopConcept chosen and a generator that answers
      with parseable JSON, the turn produces a concept. */
  lemma SelectedIdeaYieldsConcept(enc: Encoder, args: AutoAgentArgs, cls: ClassifierReply, gen: ModelReply)
    requires args.selectedIdea.Some? && FirstToolCall(cls) == Some("DevelopConcept")
    requires gen.Replied? && gen.content != Some(Unparseable)
    ensures AutoAgent(enc, args, cls, gen).message.Type() == "concept"
  {
  }

  /** A generator failure inside the ideas tool surfaces as its apology. */
  lemma IdeasFailureApologizes(enc: Encoder, args: AutoAgentArgs, cls: ClassifierReply)
    requires FirstToolCall(cls).Some? && FirstToolCall(cls) != Some("DevelopConcept")
    ensures AutoAgent(enc, args, cls, ReplyRaised).message == TextMessage(IdeasApology)
  {
  }
}
