/** The business context a session is configured with, shared by the agent
    function and the dashboard. */
module Context {
  import JsText

  datatype Objective = Awareness | Engagement | Conversion

  /** The objective as the string the code interpolates into prompts. */
  function ObjectiveName(o: Objective): (s: string)
    ensures |s| > 0 && !JsText.IsWhite(s[|s| - 1])
  {
    match o
    case Awareness => "Awareness"
    case Engagement => "Engagement"
    case Conversion => "Conversion"
  }

  datatype Organization = Organization(name: string, description: string)

  datatype Product = Product(name: string, description: string)

  datatype Audience = Audience(
    name: string,
    ageRange: string,
    location: string,
    interests: seq<string>,
    tone: string)

  datatype SessionContext = SessionContext(
    organization: Organization,
    product: Product,
    audience: Audience,
    objective: Objective)

  /** One generated idea, as the client sends it back as `selected_idea`. */
  datatype IdeaListItem = IdeaListItem(
    id: string,
    title: string,
    summary: string,
    channel: string,
    hook: string,
    tags: seq<string>)
}
