/** The dashboard page's logic: the checks before a generation starts, the
    generation flow as a trace of effects, the Generate button's state, the
    context badges and the prompt shown on a session card. Authentication,
    the session insert and the agent invocation are parameters. */
module Dashboard {
  import opened Json
  import opened JsText
  import opened Settings

  const NoProductAlert: string := "Please select a product in Settings before generating"
  const NoAudienceAlert: string := "Please select an audience in Settings before generating"
  const NotLoggedInAlert: string := "You must be logged in to create a session"
  const SessionFailedAlert: string := "Failed to create session"
  const AgentFailedAlert: string := "Failed to generate ideas. Please try again."
  const UnexpectedAlert: string := "An unexpected error occurred"

  /** The verdict of the checks at the top of `handleGenerate`, in order. */
  datatype Guard = BlankPrompt | NeedProduct | NeedAudience | Ready(userInput: string)

  /** The first failing check wins: the prompt, then the product name, then
      the audience name, each judged after trimming. */
  function CheckGenerate(prompt: string, c: ContextConfig): (g: Guard)
    ensures g.BlankPrompt? <==> AllWhite(prompt)
    ensures g.NeedProduct? <==> !AllWhite(prompt) && AllWhite(c.product.name)
    ensures g.NeedAudience? <==> !AllWhite(prompt) && !AllWhite(c.product.name) && AllWhite(c.audience.name)
    ensures g.Ready? ==> g.userInput == Trim(prompt) && g.userInput != []
  {
    if Trim(prompt) == [] then BlankPrompt
    else if Trim(c.product.name) == [] then NeedProduct
    else if Trim(c.audience.name) == [] then NeedAudience
    else Ready(Trim(prompt))
  }

  /** A collaborator call that raises, reports an error (or no user), or
      returns a value. */
  datatype Call<+T> = CallRaised | CallFailed | CallOk(value: T)

  /** The replies of the collaborators `handleGenerate` calls, in order. */
  datatype GenerateReplies = GenerateReplies(user: Call<string>, session: Call<string>, agent: Call<Json>)

  datatype UiEffect =
    | Alert(text: string)
    | SetGenerating(on: bool)
    | InsertSession(userId: string, prompt: string, context: ContextConfig)
    | InvokeAgent(sessionId: string, context: ContextConfig, userInput: string)
    | Navigate(path: string)

  /** The effect hands the prompt text to a collaborator. */
  predicate Sends(e: UiEffect) {
    e.InsertSession? || e.InvokeAgent?
  }

  /** A session insert or an agent invocation carries exactly `text`. */
  predicate SentWith(e: UiEffect, text: string) {
    && (e.InsertSession? ==> e.prompt == text)
    && (e.InvokeAgent? ==> e.userInput == text)
  }

  /** Every check at the top of `handleGenerate` passes. */
  predicate Generatable(prompt: string, c: ContextConfig) {
    !AllWhite(prompt) && !AllWhite(c.product.name) && !AllWhite(c.audience.name)
  }

  /** The alert for a collaborator call that did not succeed. */
  function FailureAlert<T>(call: Call<T>, failed: string): UiEffect
    requires !call.CallOk?
  {
    if call.CallRaised? then Alert(UnexpectedAlert) else Alert(failed)
  }

  /** The body of the `try` block once the checks passed: get the user, insert
      the session, invoke the agent, then open the session's page; the first
      call that does not succeed ends the flow with an alert. */
  function GenerateSteps(input: string, c: ContextConfig, rs: GenerateReplies): (r: seq<UiEffect>)
    ensures 1 <= |r| <= 3
    ensures forall i | 0 <= i < |r| :: !r[i].SetGenerating?
    ensures forall i | 0 <= i < |r| && r[i].InsertSession? :: i == 0 && r[i].prompt == input && r[i].context == c
    ensures forall i | 0 <= i < |r| && r[i].InvokeAgent? :: i == 1 && r[i].userInput == input && r[i].context == c
    ensures forall i | 0 <= i < |r| && r[i].Navigate? ::
              i == 2 && rs.user.CallOk? && rs.session.CallOk? && rs.agent.CallOk?
              && r[i].path == "/protected/s/" + rs.session.value
    ensures |r| == (if !rs.user.CallOk? then 1 else if !rs.session.CallOk? then 2 else 3)
    ensures !rs.user.CallOk? ==> r[0] == Alert(if rs.user.CallRaised? then UnexpectedAlert else NotLoggedInAlert)
    ensures rs.user.CallOk? ==> r[0] == InsertSession(rs.user.value, input, c)
    ensures rs.user.CallOk? && !rs.session.CallOk? ==>
              r[1] == Alert(if rs.session.CallRaised? then UnexpectedAlert else SessionFailedAlert)
    ensures rs.user.CallOk? && rs.session.CallOk? ==> r[1] == InvokeAgent(rs.session.value, c, input)
    ensures rs.user.CallOk? && rs.session.CallOk? && !rs.agent.CallOk? ==>
              r[2] == Alert(if rs.agent.CallRaised? then UnexpectedAlert else AgentFailedAlert)
  {
    match rs.user
    case CallOk(uid) =>
      var insert := InsertSession(uid, input, c);
      (match rs.session
       case CallOk(sid) =>
         var invoke := InvokeAgent(sid, c, input);
         (match rs.agent
          case CallOk(_) => [insert, invoke, Navigate("/protected/s/" + sid)]
          case _ => [insert, invoke, FailureAlert(rs.agent, AgentFailedAlert)])
       case _ => [insert, FailureAlert(rs.session, SessionFailedAlert)])
    case _ => [FailureAlert(rs.user, NotLoggedInAlert)]
  }

  /** `handleGenerate`: the checks, then the flow between the two updates of
      the generating flag (the `finally` clears it on every path). */
  function HandleGenerate(prompt: string, c: ContextConfig, rs: GenerateReplies): (r: seq<UiEffect>)
    ensures AllWhite(prompt) ==> r == []
    ensures !AllWhite(prompt) && AllWhite(c.product.name) ==> r == [Alert(NoProductAlert)]
    ensures !AllWhite(prompt) && !AllWhite(c.product.name) && AllWhite(c.audience.name) ==> r == [Alert(NoAudienceAlert)]
    ensures Generatable(prompt, c) ==>
              |r| >= 3 && r[0] == SetGenerating(true) && r[|r| - 1] == SetGenerating(false)
  {
    match CheckGenerate(prompt, c)
    case BlankPrompt => []
    case NeedProduct => [Alert(NoProductAlert)]
    case NeedAudience => [Alert(NoAudienceAlert)]
    case Ready(input) =>
      var steps := GenerateSteps(input, c, rs);
      [SetGenerating(true)] + steps + [SetGenerating(false)]
  }

  /** Wrapping the flow between the flag updates keeps every insert and
      invocation carrying the accepted text. */
  lemma FramedSent(input: string, c: ContextConfig, rs: GenerateReplies)
    ensures var r := [SetGenerating(true)] + GenerateSteps(input, c, rs) + [SetGenerating(false)];
            forall i | 0 <= i < |r| :: SentWith(r[i], input)
  {
    var steps := GenerateSteps(input, c, rs);
    var r := [SetGenerating(true)] + steps + [SetGenerating(false)];
    Framed(SetGenerating(true), steps, SetGenerating(false));
    forall i | 0 <= i < |r|
      ensures SentWith(r[i], input)
    {
      if 0 < i < |r| - 1 {
        assert r[i] == steps[i - 1];
      }
    }
  }

  /** Where the elements of a sequence land once it is wrapped between two
      elements. */
  lemma Framed<T>(first: T, s: seq<T>, last: T)
    ensures var r := [first] + s + [last];
            |r| == |s| + 2 && r[0] == first && r[|r| - 1] == last &&
            forall i | 0 <= i < |s| :: r[i + 1] == s[i]
  {
  }

  /** Once the checks pass, the trace is the flow between setting and
      clearing the generating flag. */
  lemma ReadyTrace(prompt: string, c: ContextConfig, rs: GenerateReplies)
    requires Generatable(prompt, c)
    ensures HandleGenerate(prompt, c, rs) == [SetGenerating(true)] + GenerateSteps(Trim(prompt), c, rs) + [SetGenerating(false)]
  {
  }

  /** No session is inserted and the agent is not invoked unless the checks
      passed, and both receive the trimmed prompt. */
  lemma SentOnlyWhenReady(prompt: string, c: ContextConfig, rs: GenerateReplies)
    ensures var r := HandleGenerate(prompt, c, rs);
            forall i | 0 <= i < |r| && Sends(r[i]) :: Generatable(prompt, c) && SentWith(r[i], Trim(prompt))
  {
    if Generatable(prompt, c) {
      ReadyTrace(prompt, c, rs);
      FramedSent(Trim(prompt), c, rs);
    }
  }

  /** With every collaborator succeeding, the flow runs all three steps. */
  lemma AllSucceed(input: string, c: ContextConfig, uid: string, sid: string, data: Json)
    ensures GenerateSteps(input, c, GenerateReplies(CallOk(uid), CallOk(sid), CallOk(data)))
         == [InsertSession(uid, input, c), InvokeAgent(sid, c, input), Navigate("/protected/s/" + sid)]
  {
  }

  /** With every collaborator succeeding, the page creates the session, calls
      the agent with the trimmed prompt and opens the session's page. */
  lemma HappyPath(prompt: string, c: ContextConfig, uid: string, sid: string, data: Json)
    requires Generatable(prompt, c)
    ensures HandleGenerate(prompt, c, GenerateReplies(CallOk(uid), CallOk(sid), CallOk(data)))
         == [SetGenerating(true), InsertSession(uid, Trim(prompt), c), InvokeAgent(sid, c, Trim(prompt)),
             Navigate("/protected/s/" + sid), SetGenerating(false)]
  {
    var rs := GenerateReplies(CallOk(uid), CallOk(sid), CallOk(data));
    var input := Trim(prompt);
    ReadyTrace(prompt, c, rs);
    AllSucceed(input, c, uid, sid, data);
    FramedThree(SetGenerating(true), InsertSession(uid, input, c), InvokeAgent(sid, c, input),
                Navigate("/protected/s/" + sid), SetGenerating(false));
  }

  /** A three-step flow wrapped between the flag updates, as one sequence.
      Stated once here so that the trace proofs need not rebuild the
      concatenation element by element. */
  lemma FramedThree<T>(first: T, x: T, y: T, z: T, last: T)
    ensures [first] + [x, y, z] + [last] == [first, x, y, z, last]
  {
  }

  /** The Generate button is disabled exactly when the prompt is blank or a
      generation is running. */
  function ButtonDisabled(prompt: string, generating: bool): (r: bool)
    ensures r <==> AllWhite(prompt) || generating
  {
    Trim(prompt) == [] || generating
  }

  /** An enabled button never hits the blank-prompt check. */
  lemma EnabledButtonPassesFirstCheck(prompt: string, c: ContextConfig)
    requires !ButtonDisabled(prompt, false)
    ensures CheckGenerate(prompt, c) != BlankPrompt
  {
  }

  /** A badge shows the name when it has a non-white character, and the
      placeholder otherwise. */
  function Badge(name: string, placeholder: string): (r: string)
    ensures !AllWhite(name) ==> r == name
    ensures AllWhite(name) ==> r == placeholder
  {
    if Trim(name) != [] then name else placeholder
  }

  /** With a placeholder that is not all white space, a badge shows its own
      name exactly when the name is not all white space. */
  lemma BadgeShowsName(name: string, placeholder: string)
    requires !AllWhite(placeholder)
    ensures Badge(name, placeholder) == name <==> !AllWhite(name)
  {
    if AllWhite(name) {
      var i :| 0 <= i < |placeholder| && !IsWhite(placeholder[i]);
      if |name| == |placeholder| {
        assert IsWhite(name[i]) && !IsWhite(placeholder[i]);
      }
    }
  }

  function ProductBadge(c: ContextConfig): string {
    Badge(c.product.name, "No product")
  }

  function AudienceBadge(c: ContextConfig): string {
    Badge(c.audience.name, "No audience")
  }

  /** For a non-blank prompt, each badge shows its own name exactly when the
      matching generation check passes; a name spelled like the placeholder
      still counts as a name. */
  lemma BadgesMatchChecks(prompt: string, c: ContextConfig)
    requires !AllWhite(prompt)
    ensures CheckGenerate(prompt, c) == NeedProduct <==> ProductBadge(c) == "No product" && AllWhite(c.product.name)
    ensures CheckGenerate(prompt, c).Ready? <==> !AllWhite(c.product.name) && !AllWhite(c.audience.name)
    ensures CheckGenerate(prompt, c) == NeedProduct <==> ProductBadge(c) != c.product.name
    ensures CheckGenerate(prompt, c) == NeedAudience <==>
              ProductBadge(c) == c.product.name && AudienceBadge(c) != c.audience.name
    ensures CheckGenerate(prompt, c).Ready? <==>
              ProductBadge(c) == c.product.name && AudienceBadge(c) == c.audience.name
  {
    assert !IsWhite("No product"[0]) && !IsWhite("No audience"[0]);
    BadgeShowsName(c.product.name, "No product");
    BadgeShowsName(c.audience.name, "No audience");
  }

  const CardPromptLimit: nat := 60

  /** The prompt on a session card: unchanged up to 60 characters, otherwise
      its first 60 characters followed by "...". */
  function CardPrompt(prompt: string): (r: string)
    ensures |prompt| <= CardPromptLimit ==> r == prompt
    ensures |prompt| > CardPromptLimit ==>
              |r| == CardPromptLimit + 3 && r[..CardPromptLimit] == prompt[..CardPromptLimit] && r[CardPromptLimit..] == "..."
    ensures |r| <= CardPromptLimit + 3
  {
    if |prompt| > CardPromptLimit then prompt[..CardPromptLimit] + "..." else prompt
  }
}
