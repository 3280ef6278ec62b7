/** The agent edge function's request handler, as the sequence of effects it
    performs for one request: message inserts, the agent turn with its model
    requests, and the single HTTP response. The environment, the parsed body
    and every collaborator's reply are parameters. */
module Handler {
  import opened Basics
  import opened Context
  import opened Agent

  /** The process configuration read from the environment. */
  datatype Env = Env(openAiKey: Option<string>, supabaseUrl: Option<string>, serviceRoleKey: Option<string>)

  /** The request body fields the handler reads; None stands for an absent or
      null field. */
  datatype Body = Body(
    context: Option<SessionContext>,
    userInput: Option<string>,
    sessionId: Option<string>,
    selectedIdea: Option<IdeaListItem>)

  /** An inbound request: its method and what `req.json()` made of its body. */
  datatype HttpRequest = HttpRequest(verb: string, body: Try<Body>)

  /** A message-table insert: it raises, reports an error, or stores the row
      and returns the id and creation time the store gave it. */
  datatype StoreReply = StoreRaised | StoreError | Stored(id: string, createdAt: string)

  /** The replies of every collaborator for one request. */
  datatype Collaborators = Collaborators(
    encoder: Encoder,
    classifier: ClassifierReply,
    generator: ModelReply,
    userInsert: StoreReply,
    assistantInsert: StoreReply)

  /** A row of the message table as the store returns it. */
  datatype StoredMessage = StoredMessage(
    id: string,
    sessionId: string,
    createdAt: string,
    role: string,
    msgType: string,
    content: Content)

  datatype ResponseBody =
    | PreflightOk
    | ErrorBody(error: string)
    | MessageBody(message: Option<StoredMessage>)
    | FallbackBody(fallback: AgentMessage)

  datatype Effect =
    | InsertMessage(sessionId: string, role: string, msgType: string, content: Content)
    | RunAgent(args: AutoAgentArgs)
    | ModelRequest(call: ModelCall)
    | Respond(status: int, body: ResponseBody)

  const MissingOpenAiKey: string := "OPENAI_API_KEY not configured"
  const MissingSupabase: string := "Supabase configuration not found"
  const MissingFields: string := "Missing required fields: context, user_input, and session_id"

  /** A truthy string: present and non-empty. */
  predicate Filled(s: Option<string>) {
    s.Some? && s.value != []
  }

  predicate Configured(env: Env) {
    Filled(env.openAiKey) && Filled(env.supabaseUrl) && Filled(env.serviceRoleKey)
  }

  predicate HasRequiredFields(b: Body) {
    b.context.Some? && Filled(b.userInput) && Filled(b.sessionId)
  }

  /** The response sent when an exception reaches the handler's outer catch. */
  function Fallback(): Effect {
    Respond(200, FallbackBody(TextMessage(RouterApology)))
  }

  function Requests(calls: seq<ModelCall>): (r: seq<Effect>)
    ensures |r| == |calls|
    ensures forall i | 0 <= i < |r| :: r[i] == ModelRequest(calls[i])
  {
    seq(|calls|, i requires 0 <= i < |calls| => ModelRequest(calls[i]))
  }

  /** The agent's arguments for an accepted body. */
  function ArgsOf(b: Body): AutoAgentArgs
    requires HasRequiredFields(b)
  {
    AutoAgentArgs(b.context.value, b.userInput.value, b.selectedIdea)
  }

  /** The message row the handler stores for the user's text. */
  function UserRow(b: Body): Effect
    requires HasRequiredFields(b)
  {
    InsertMessage(b.sessionId.value, "user", "text", Text(b.userInput.value))
  }

  /** The effects of an accepted request up to the response: store the user's
      text, run the agent and send its requests, store the agent's message. */
  function AgentSteps(b: Body, turn: Turn): (r: seq<Effect>)
    requires HasRequiredFields(b)
    ensures |r| == |turn.calls| + 3
    ensures r[0] == UserRow(b)
    ensures r[1] == RunAgent(ArgsOf(b))
    ensures forall i | 0 <= i < |turn.calls| :: r[2 + i] == ModelRequest(turn.calls[i])
    ensures r[|r| - 1] == InsertMessage(b.sessionId.value, Assistant, turn.message.Type(), turn.message.content)
    ensures forall i | 0 <= i < |r| :: !r[i].Respond?
  {
    var m := turn.message;
    [UserRow(b), RunAgent(ArgsOf(b))] + Requests(turn.calls) + [InsertMessage(b.sessionId.value, Assistant, m.Type(), m.content)]
  }

  /** The response to an accepted request once the agent's message has been
      offered to the store: the stored row, no row on a store error, and the
      generic apology if the insert raised. */
  function Reply(b: Body, m: AgentMessage, insert: StoreReply): (e: Effect)
    requires HasRequiredFields(b)
    ensures e.Respond? && e.status == 200
  {
    match insert
    case StoreRaised => Fallback()
    case StoreError => Respond(200, MessageBody(None))
    case Stored(id, at) =>
      Respond(200, MessageBody(Some(StoredMessage(id, b.sessionId.value, at, Assistant, m.Type(), m.content))))
  }

  /** The effects of an accepted request. */
  function Accepted(b: Body, co: Collaborators): (trace: seq<Effect>)
    requires HasRequiredFields(b)
  {
    if co.userInsert.StoreRaised? then [UserRow(b), Fallback()]
    else
      var turn := AutoAgent(co.encoder, ArgsOf(b), co.classifier, co.generator);
      AgentSteps(b, turn) + [Reply(b, turn.message, co.assistantInsert)]
  }

  /** The handler passed to `serve`. */
  function Serve(env: Env, req: HttpRequest, co: Collaborators): (trace: seq<Effect>)
    ensures |trace| > 0 && trace[|trace| - 1].Respond?
    ensures forall i | 0 <= i < |trace| - 1 :: !trace[i].Respond?
    ensures trace[|trace| - 1].status in {200, 400, 500}
  {
    if req.verb == "OPTIONS" then [Respond(200, PreflightOk)]
    else if !Filled(env.openAiKey) then [Respond(500, ErrorBody(MissingOpenAiKey))]
    else if !Filled(env.supabaseUrl) || !Filled(env.serviceRoleKey) then [Respond(500, ErrorBody(MissingSupabase))]
    else match req.body
      case Raised => [Fallback()]
      case Returned(b) =>
        if !HasRequiredFields(b) then [Respond(400, ErrorBody(MissingFields))]
        else Accepted(b, co)
  }

  /** The status of the one response a trace ends with. */
  function Status(trace: seq<Effect>): int
    requires |trace| > 0 && trace[|trace| - 1].Respond?
  {
    trace[|trace| - 1].status
  }

  /** A request that is not a preflight, arrives with credentials configured and
      has a parseable body reaches the field check. */
  predicate Checked(env: Env, req: HttpRequest) {
    req.verb != "OPTIONS" && Configured(env) && req.body.Returned?
  }

  /** A preflight request is answered at once, before anything else. */
  lemma PreflightAnswered(env: Env, req: HttpRequest, co: Collaborators)
    requires req.verb == "OPTIONS"
    ensures Serve(env, req, co) == [Respond(200, PreflightOk)]
  {
  }

  /** Missing credentials end the request with 500 and nothing else; the
      model key is checked before the store's. */
  lemma UnconfiguredIs500(env: Env, req: HttpRequest, co: Collaborators)
    requires req.verb != "OPTIONS" && !Configured(env)
    ensures Serve(env, req, co) == [Respond(500, ErrorBody(if Filled(env.openAiKey) then MissingSupabase else MissingOpenAiKey))]
  {
  }

  /** A missing or empty `context`, `user_input` or `session_id` is rejected with
      400, before any insert, agent run or model request. */
  lemma MissingFieldRejected(env: Env, req: HttpRequest, co: Collaborators)
    requires Checked(env, req) && !HasRequiredFields(req.body.value)
    ensures Serve(env, req, co) == [Respond(400, ErrorBody(MissingFields))]
  {
  }

  /** Among checked requests, 400 is answered exactly when a field is missing. */
  lemma BadRequestIff(env: Env, req: HttpRequest, co: Collaborators)
    requires Checked(env, req)
    ensures Status(Serve(env, req, co)) == 400 <==> !HasRequiredFields(req.body.value)
  {
  }

  /** An accepted request whose user insert did not raise: the agent's steps,
      then the reply to the assistant insert. */
  lemma AcceptedTrace(env: Env, req: HttpRequest, co: Collaborators)
    requires Checked(env, req) && HasRequiredFields(req.body.value)
    requires !co.userInsert.StoreRaised?
    ensures var b := req.body.value;
            var turn := AutoAgent(co.encoder, ArgsOf(b), co.classifier, co.generator);
            var steps := AgentSteps(b, turn);
            var t := Serve(env, req, co);
            && |t| == |steps| + 1
            && t[|steps|] == Reply(b, turn.message, co.assistantInsert)
            && forall i | 0 <= i < |steps| :: t[i] == steps[i]
  {
    var b := req.body.value;
    var turn := AutoAgent(co.encoder, ArgsOf(b), co.classifier, co.generator);
    Snoc(AgentSteps(b, turn), Reply(b, turn.message, co.assistantInsert));
  }

  /** Once a request is accepted, the caller always gets 200, whatever the model
      and the store do. */
  lemma AcceptedAlways200(env: Env, req: HttpRequest, co: Collaborators)
    requires Checked(env, req) && HasRequiredFields(req.body.value)
    ensures Status(Serve(env, req, co)) == 200
  {
  }

  /** In an accepted request the user's text is stored first, then the agent
      runs and sends its requests, then its message is stored, then the one
      response goes out. */
  lemma AcceptedOrder(env: Env, req: HttpRequest, co: Collaborators)
    requires Checked(env, req) && HasRequiredFields(req.body.value)
    requires !co.userInsert.StoreRaised?
    ensures var b := req.body.value;
            var t := Serve(env, req, co);
            var turn := AutoAgent(co.encoder, ArgsOf(b), co.classifier, co.generator);
            && |t| == |turn.calls| + 4
            && t[0] == UserRow(b)
            && t[1] == RunAgent(ArgsOf(b))
            && (forall i | 0 <= i < |turn.calls| :: t[2 + i] == ModelRequest(turn.calls[i]))
            && t[|t| - 2] == InsertMessage(b.sessionId.value, Assistant, turn.message.Type(), turn.message.content)
  {
    AcceptedTrace(env, req, co);
  }

  /** A failed assistant insert is not fatal: the response is still 200, with
      no stored row to return. */
  lemma AssistantInsertErrorStill200(env: Env, req: HttpRequest, co: Collaborators)
    requires Checked(env, req) && HasRequiredFields(req.body.value)
    requires !co.userInsert.StoreRaised? && co.assistantInsert.StoreError?
    ensures var t := Serve(env, req, co);
            t[|t| - 1] == Respond(200, MessageBody(None))
  {
  }

  /** When the assistant row is stored, the response carries exactly the agent's
      message type and content under the session's id. */
  lemma StoredReplyMatchesTurn(env: Env, req: HttpRequest, co: Collaborators)
    requires Checked(env, req) && HasRequiredFields(req.body.value)
    requires !co.userInsert.StoreRaised? && co.assistantInsert.Stored?
    ensures var b := req.body.value;
            var m := AutoAgent(co.encoder, ArgsOf(b), co.classifier, co.generator).message;
            var t := Serve(env, req, co);
            var body := t[|t| - 1].body;
            body.MessageBody? && body.message.Some?
            && body.message.value.sessionId == b.sessionId.value
            && body.message.value.msgType == m.Type()
            && body.message.value.content == m.content
  {
    AcceptedTrace(env, req, co);
  }

  /** No model request is ever sent before the user's text has been stored. */
  lemma ModelRequestsFollowUserInsert(env: Env, req: HttpRequest, co: Collaborators)
    ensures var t := Serve(env, req, co);
            forall i | 0 <= i < |t| && t[i].ModelRequest? ::
              i >= 2 && t[0].InsertMessage? && t[0].role == "user"
  {
    if Checked(env, req) && HasRequiredFields(req.body.value) && !co.userInsert.StoreRaised? {
      AcceptedTrace(env, req, co);
    }
  }

  /** An exception escaping to the outer catch, including a body that is not
      JSON, still yields 200 with the generic apology. */
  lemma UncaughtIsGeneric200(env: Env, req: HttpRequest, co: Collaborators)
    requires req.verb != "OPTIONS" && Configured(env)
    requires req.body.Raised? || (HasRequiredFields(req.body.value) && (co.userInsert.StoreRaised? || co.assistantInsert.StoreRaised?))
    ensures var t := Serve(env, req, co);
            t[|t| - 1] == Respond(200, FallbackBody(TextMessage(RouterApology)))
  {
  }
}
