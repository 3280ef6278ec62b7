# Campaign agent: a Dafny model

This project models the core of a marketing-concept generator built on
Next.js and Supabase. It covers the following parts:

- **The agent edge function.** It routes a user's brief with a tool-calling
  classifier. It then either generates ten campaign ideas, develops a
  selected idea into a full concept, or answers with a short text. It
  stores the user's and the assistant's messages in the session's message
  table.
- **The settings form.** It edits the session context: product, audience,
  interest chips, and the creation of a new audience.
- **The session-list hook.** It turns stored sessions into cards with
  message counts and a "time ago" label.
- **The dashboard page.** It covers the checks before a generation, the
  generation flow, the Generate button's state, the context badges and the
  prompt shown on a session card.

Every operation is a pure function. Anything the code awaits is a
parameter of the model:

- the OpenAI replies,
- the store's replies,
- the authentication lookup,
- the function invocation,
- `JSON.stringify`.

The request handler and the dashboard's generation flow are modelled as
traces. A trace is the ordered list of effects an operation performs:
inserts, model requests, alerts, navigation and the HTTP response. Ordering
properties are therefore statements about positions in a sequence.

Modules, one per file:

| module | file | models |
|---|---|---|
| `Basics` | basics.dfy | `Option` and `Try`, where `Try` means a call either raises or returns |
| `JsText` | jstext.dfy | `String.prototype.trim` with the ECMAScript white-space set, `Array.prototype.join`, decimal rendering of integers |
| `Json` | json.dfy | JSON values, JavaScript truthiness, `x || y`, property access that throws on `null`, optional chaining |
| `Context` | context.dfy | the session context and the idea-list item |
| `Agent` | agent.dfy | `callJson`, the prompt builders, `toolGenerateIdeas`, `toolDevelopConcept`, `autoAgent` |
| `Handler` | handler.dfy | the request handler passed to `serve` |
| `Settings` | settings.dfy | `handleProductChange`, `handleAudienceChange`, `handleCreateAudience`, `addChip`, `removeChip`, submitting the interest field |
| `Sessions` | sessions.dfy | `formatTimeAgo` and the session-row transform |
| `Dashboard` | dashboard.dfy | `handleGenerate`, the button predicate, the badges, the card prompt |

Where the documented behaviour and the code disagree, the model follows the
code:

- **Malformed model output.** If the model's content is not valid JSON,
  `JSON.parse` throws inside `callJson`. The tool's `catch` then returns its
  apology text. An empty object arises only when the content is absent.
- **Failed assistant insert.** When storing the assistant's message fails,
  the handler still answers 200. The body is `{ message: null }`, not the
  generated message: the handler returns the row the store gave back
  (`storedMessage`), and that is null on error.
- **Unchecked concepts.** A concept's fields are never checked. Whatever
  object the model returns is stored as the concept, including `{}`
  (`Agent.EmptyConceptPassesThrough`).
- **White-space classifier text.** When the classifier answers with
  white-space-only text, the reply is the empty string, not the default
  reply. This is because `||` tests the untrimmed text
  (`Agent.WhiteContentRepliesEmpty`).

## Model

| member | source | states |
|---|---|---|
| Agent.CallJson | supabase/functions/agent/index.ts:149-167 | The call raises exactly when the completion raises or its content is not valid JSON. An absent content yields `{}`. Parsed content is returned unchanged, and the usage is passed through. |
| Agent.MetaOf | supabase/functions/agent/index.ts:182-186 | A generated message's meta names the JSON model and copies the prompt and completion token counts, which are absent when the usage is absent. |
| Agent.IdeasContextBlock | supabase/functions/agent/index.ts:65-69 | The context block, and so the ideas prompt, opens with the text `ORG: `. |
| Agent.BuildIdeasPrompt | supabase/functions/agent/index.ts:63-98 | Trimming the ideas template removes only its framing newlines. Every context field and the user's text reach the model unchanged, even when they start or end with white space. |
| Agent.IdeasTextEnds | supabase/functions/agent/index.ts:65-97 | The ideas template text between its framing newlines starts and ends with a non-white character. |
| Agent.BuildDevelopPrompt | supabase/functions/agent/index.ts:100-147 | Trimming the concept template removes only its framing newlines. The serialized context and idea are kept unchanged, and the prompt ends with the session's objective. |
| Agent.DevelopTextEnds | supabase/functions/agent/index.ts:101-145 | The concept template text opens with `CONTEXT:` and a line break and closes with the last character of the objective's name. Both ends are non-white. |
| Agent.BuildClassifierPrompt | supabase/functions/agent/index.ts:266-270 | When the user's text ends in a non-white character, trimming removes only the framing newlines. The prompt is the `CONTEXT:`, `SELECTED_IDEA:` and `USER_INPUT:` lines with the serialized context, the serialized idea or "none", and the user's text unchanged. |
| Agent.ToolGenerateIdeas | supabase/functions/agent/index.ts:169-196 | It sends one request with the ideas system prompt and the ideas prompt. The result is an idea list exactly when `callJson` returns a non-null value, and the apology text otherwise. The list is the reply's `items` when truthy, else `[]`. A parsed value that is not an object (an array, a string, a number or a boolean) gives `[]`. The meta carries the model and the usage. |
| Agent.ToolDevelopConcept | supabase/functions/agent/index.ts:198-225 | It sends one request with the concept system prompt and the develop prompt for this context and idea. The result is a concept exactly when `callJson` returns, and the apology otherwise. The parsed value becomes the concept unchanged. |
| Agent.EmptyConceptPassesThrough | supabase/functions/agent/index.ts:207-210 | An empty object from the model is stored as a concept with no title. |
| Agent.FirstToolCall | supabase/functions/agent/index.ts:284-285 | A tool call is found exactly when the classifier returned a first choice with at least one tool call. The one found is that first call. |
| Agent.ReplyText | supabase/functions/agent/index.ts:303 | An absent or empty content gives the default reply. Any other content is trimmed. |
| Agent.Decide | supabase/functions/agent/index.ts:284-316 | The classifier raising leads to the apology. No tool call leads to a text answer. DevelopConcept without a selected idea leads to the override. DevelopConcept with one develops that idea. Any other tool name generates ideas. Each case is stated in both directions. |
| Agent.AutoAgent | supabase/functions/agent/index.ts:227-317 | It makes the classifier request first, with the router prompt, and at most one more request. The second request happens exactly when a tool runs. Every reply is an assistant message, and a raised classifier gives the router apology. |
| Agent.DevelopWithoutIdea | supabase/functions/agent/index.ts:289-296 | DevelopConcept without a selected idea asks the user to pick one and sends no generation request. |
| Agent.DevelopWithIdea | supabase/functions/agent/index.ts:289-297 | DevelopConcept with a selected idea makes the turn exactly the concept tool's run on that idea. |
| Agent.OtherToolGeneratesIdeas | supabase/functions/agent/index.ts:299-300 | Any other first tool name runs the ideas tool on the user's input, including a name the router never declared. |
| Agent.NoToolCallReplies | supabase/functions/agent/index.ts:303-308 | Without a tool call the reply is a text without meta. It holds the trimmed content, or the default reply when the content is absent or empty. |
| Agent.WhiteContentRepliesEmpty | supabase/functions/agent/index.ts:303 | A white-space-only content is not replaced by the default and trims to the empty text. |
| Agent.TurnOutcomes | supabase/functions/agent/index.ts:178-187 | An idea list always comes from a second model request and carries the JSON model's meta. A concept appears only with a selected idea and DevelopConcept chosen. |
| Agent.SelectedIdeaYieldsConcept | supabase/functions/agent/index.ts:289-297 | With a selected idea, DevelopConcept chosen and a generator answering parseable or absent content, the reply is a concept. |
| Agent.IdeasFailureApologizes | supabase/functions/agent/index.ts:188-195 | A generator failure inside the ideas tool surfaces as the ideas apology. |
| Handler.Requests | supabase/functions/agent/index.ts:393 | Every model request of the turn appears in the trace, in order. |
| Handler.AgentSteps | supabase/functions/agent/index.ts:378-404 | The order is: store the user's text, run the agent, send its requests, store the agent's message. No response is sent in between. |
| Handler.Reply | supabase/functions/agent/index.ts:406-413 | Every response after the assistant insert has status 200. |
| Handler.Serve | supabase/functions/agent/index.ts:319-434 | Every request ends with exactly one response, as the last effect. Its status is 200, 400 or 500. |
| Handler.PreflightAnswered | supabase/functions/agent/index.ts:326-328 | A preflight request is answered with 200 before anything else happens. |
| Handler.UnconfiguredIs500 | supabase/functions/agent/index.ts:331-360 | Missing credentials give a 500 with no other effect. The model key is checked before the store's credentials. |
| Handler.MissingFieldRejected | supabase/functions/agent/index.ts:365-376 | A missing or empty `context`, `user_input` or `session_id` gives a 400 with no insert and no model request. |
| Handler.BadRequestIff | supabase/functions/agent/index.ts:365-376 | For a configured, parseable, non-preflight request, the status is 400 exactly when a required field is missing. |
| Handler.AcceptedTrace | supabase/functions/agent/index.ts:378-413 | Once the user's text is stored, the trace is the agent's steps followed by one reply to the assistant insert. |
| Handler.AcceptedAlways200 | supabase/functions/agent/index.ts:378-433 | Once the fields are present, the status is 200, whatever the model and the store do. |
| Handler.AcceptedOrder | supabase/functions/agent/index.ts:378-413 | In an accepted request the trace is, in order: the user row, the agent run, its model requests, the assistant row, then the response. |
| Handler.AssistantInsertErrorStill200 | supabase/functions/agent/index.ts:395-413 | A failed assistant insert still answers 200, with a null message. |
| Handler.StoredReplyMatchesTurn | supabase/functions/agent/index.ts:395-413 | A stored assistant row carries the session id, the message type and the content of the agent's reply. |
| Handler.ModelRequestsFollowUserInsert | supabase/functions/agent/index.ts:378-393 | No model request is sent before the user's text has been stored. |
| Handler.UncaughtIsGeneric200 | supabase/functions/agent/index.ts:414-433 | An unparseable body, or an insert that raises, answers 200 with the generic apology. |
| Settings.FindFirst | components/settings-form.tsx:76 | It finds nothing exactly when no element matches. Otherwise the position it returns matches and no earlier one does. |
| Settings.ProductChange | components/settings-form.tsx:74-83 | The selection always follows the id. A known id copies the first matching product's name and description, whose text the catalogue's description lookup gives. An unknown id leaves the context unchanged. Nothing else changes. |
| Settings.AudienceChange | components/settings-form.tsx:85-101 | The selection follows the id and creation mode ends. A known id installs the first matching audience. An unknown id leaves the context unchanged. Nothing else changes. |
| Settings.HandleProductChange | components/settings-form.tsx:37-83 | With the form's three products, the selection follows the id and only the product part of the context can change. An id other than "1", "2" and "3" leaves the context unchanged. |
| Settings.HandleAudienceChange | components/settings-form.tsx:43-101 | With the form's one audience, the selection follows the id, creation mode ends and only the audience can change. Id "1" installs that audience whole, with six interests. Any other id keeps the current audience. |
| Settings.HandleCreateAudience | components/settings-form.tsx:103-116 | It deselects, enters creation mode, and resets the audience to blank fields, no interests and the tone "Bold". The rest of the context is unchanged. |
| Settings.WithInterests | components/settings-form.tsx:120-126 | Only the interest list is replaced. |
| Settings.AddChip | components/settings-form.tsx:118-128 | A blank value changes nothing. Any other value appends exactly its trimmed text after the existing interests. Nothing but the interests changes. |
| Settings.FilterIndexDeletes | components/settings-form.tsx:135 | Filtering out a position deletes exactly that element and keeps the rest in order. An out-of-range position deletes nothing. |
| Settings.RemoveChip | components/settings-form.tsx:130-138 | It deletes the interest at the index and keeps the others in order. An out-of-range index changes nothing. Nothing but the interests changes. |
| Settings.AddThenRemove | components/settings-form.tsx:118-138 | Removing the chip just added restores the context. |
| Settings.SubmitInterest | components/settings-form.tsx:241-256 | Submitting the field adds it as a chip and clears it. Nothing else changes. |
| Sessions.FormatTimeAgo | hooks/useSessions.ts:15-26 | The label is never empty. It starts with a digit exactly when at least 60 whole seconds have elapsed, and below that it is "just now". |
| Sessions.Bucket | hooks/useSessions.ts:18-25 | The result is "just now" exactly below 60 seconds. Otherwise the unit is the largest one that fits the bucket thresholds. The count is the floor of seconds over the unit. |
| Sessions.Render | hooks/useSessions.ts:20-25 | A label starts with a digit exactly when it is a count. |
| Sessions.BucketCounts | hooks/useSessions.ts:21-25 | Each count stays in its bucket's range: minutes 1-59, hours 1-23, days 1-6, weeks 1-4, and months from 1 up. |
| Sessions.RenderInjective | hooks/useSessions.ts:20-25 | Different labels have different texts. |
| Sessions.SameLabelIff | hooks/useSessions.ts:15-26 | Two elapsed times get the same text exactly when they fall in the same bucket with the same count. |
| Sessions.JustNowIff | hooks/useSessions.ts:18-20 | The label is "just now" exactly when the floored elapsed seconds are below 60. This includes times in the future. |
| Sessions.MinutesLabel | hooks/useSessions.ts:21 | Between one minute and one hour the label is the whole minutes followed by "m ago". |
| Sessions.OfType | hooks/useSessions.ts:67-68 | The result keeps exactly the messages of the given type, and no more than there were. |
| Sessions.OfTypeMultiplicity | hooks/useSessions.ts:67-68 | Each message of the given type is kept as many times as it occurs, and every other message is dropped. |
| Sessions.CountsBounded | hooks/useSessions.ts:66-68 | The ideas count plus the concepts count never exceeds the number of messages. |
| Sessions.NameOrNA | hooks/useSessions.ts:71-72 | The result is the nested `name` when truthy, else "N/A". A missing or null context gives "N/A". |
| Sessions.Summarize | hooks/useSessions.ts:65-84 | A card keeps the id and prompt, counts the idea lists and concepts of the row's messages, labels its age, and falls back to "N/A". |
| Sessions.Transform | hooks/useSessions.ts:65-85 | There is one card per row, in the rows' order. A null result gives no cards. |
| Dashboard.CheckGenerate | app/protected/page.tsx:41-50 | The first failing check wins: a blank prompt, then a blank product name, then a blank audience name. When all pass, the text kept is the trimmed prompt. Each case is stated as an if-and-only-if. |
| Dashboard.GenerateSteps | app/protected/page.tsx:53-95 | The flow stops at the first call that fails. A failed user lookup gives only the not-logged-in alert. A failed session insert gives the insert and then the session alert. A failed agent call gives the insert, the invocation and then the agent alert. A call that raises gives the generic alert instead. The session insert comes first and the agent invocation second, both with the trimmed prompt and the context. Navigation happens only when every call succeeded, and it opens the new session's page. |
| Dashboard.HandleGenerate | app/protected/page.tsx:41-102 | A blank prompt does nothing. A missing product or audience gives just its alert. Otherwise the generating flag is set first and cleared last. |
| Dashboard.SentOnlyWhenReady | app/protected/page.tsx:41-85 | No session is inserted and the agent is not called unless every check passed. Both receive the trimmed prompt. |
| Dashboard.HappyPath | app/protected/page.tsx:52-101 | With every collaborator succeeding, the trace is, in order: set the flag, insert the session, invoke the agent, open the session page, clear the flag. |
| Dashboard.ButtonDisabled | app/protected/page.tsx:171 | The button is disabled exactly when the prompt is blank or a generation is running. |
| Dashboard.EnabledButtonPassesFirstCheck | app/protected/page.tsx:42 | An enabled button never stops at the blank-prompt check. |
| Dashboard.Badge | app/protected/page.tsx:147-164 | A badge shows the name when it has a non-white character, and the placeholder otherwise. |
| Dashboard.BadgeShowsName | app/protected/page.tsx:147-164 | With a non-blank placeholder, a badge shows its own name exactly when the name is not all white space. |
| Dashboard.BadgesMatchChecks | app/protected/page.tsx:43-50 | For a non-blank prompt, the generation stops for the product exactly when the product badge does not show the product name. It stops for the audience exactly when the product badge shows its name and the audience badge does not. It is ready exactly when both badges show their names. A name spelled like the placeholder counts as a name. |
| Dashboard.CardPrompt | app/protected/page.tsx:214-216 | Up to 60 characters the prompt is shown unchanged. A longer prompt shows its first 60 characters followed by "...". |
| JsText.Trim | supabase/functions/agent/index.ts:146 | The result is the input with a white-space-only prefix and a white-space-only suffix removed, and its ends are non-white. It is empty exactly when the input is all white space. |
| JsText.TrimIdempotent | app/protected/page.tsx:42-67 | Trimming twice is trimming once. |
| JsText.Decimal | hooks/useSessions.ts:21-25 | A count renders as a non-empty run of digits with no leading zero. |
| JsText.DecimalRoundTrip | hooks/useSessions.ts:21-25 | Reading back the digits gives the count. |
| JsText.Join | supabase/functions/agent/index.ts:68 | Joining no interests gives the empty text, and joining one gives that interest. The text starts with the first interest. |
| JsText.JoinSnoc | supabase/functions/agent/index.ts:68 | Adding an interest to a non-empty list appends the separator and that interest to the joined text. |

## Left out

- The network, the OpenAI client, the Supabase client, `Deno.env`, the CORS
  headers and logging are not modelled. Their replies are parameters.
- `JSON.stringify` is not modelled. It is a parameter (`Agent.Encoder`), so
  the prompts that embed serialized values are stated relative to it.
- The sampling temperatures, `response_format`, `tool_choice` and the tool
  declarations are not modelled. They are not observable in the handler's
  result.
- The tool calls' arguments are not modelled. The router reads only the
  first tool call's name.
- `Json`: the model does not cover every JavaScript value a field could
  hold. Body fields are typed (`Option<SessionContext>`, `Option<string>`).
  A truthy context of the wrong shape, or a number where a string is
  expected, is not modelled.
- The store's generated ids and timestamps are parameters. `Date.now()` is
  a parameter (`nowMs`) of the session transform.
- `Sessions.FormatTimeAgo`: an invalid date makes the JavaScript difference
  NaN, which renders as "NaNmo ago". The model takes integer milliseconds,
  so that case is not covered.
- Strings are sequences of Unicode scalar values, not of UTF-16 code units.
  A character outside the Basic Multilingual Plane counts as one character
  here but two in JavaScript. So for such prompts `Dashboard.CardPrompt`
  cuts at a different place than `substring(0, 60)` does, and the length
  test differs too. A lone surrogate, which JavaScript strings can hold and
  the cut can produce, cannot be represented. No Unicode normalisation is
  involved.
- The settings form's inline field setters (organization, audience detail
  inputs, objective radio) only assign one field. Rendering, the dialog,
  and the save and cancel callbacks are not modelled.
- `Settings.HandleProductChange`: it does not state which product a known id
  installs. The three long description literals are too costly for the
  solver. Instead the `Settings.ProductChange` contract states it for any
  catalogue and any description lookup. The descriptions are named
  (`Settings.Blurb`) and spelled out by `Settings.BlurbText`.
- `Agent.BuildClassifierPrompt`: it does not state the prompt when the
  user's text ends in white space. In that case the trim also removes the
  text's trailing white space, and when the text is all white space it
  removes the space after the `USER_INPUT:` label too.
- The session page (`app/protected/s/[id]/page.tsx`) and the protected
  layout are not part of this model.
- Authentication redirects and React state (`useState`, `useEffect`,
  loading flags) are not modelled, except the generating flag in
  `Dashboard.HandleGenerate`.
