/** The settings form's updates to the session context, as pure functions on
    the form's state. Rendering and React state plumbing are not modelled. */
module Settings {
  import opened Basics
  import opened Json
  import opened JsText
  import opened Context

  /** The context the dashboard edits: the session context plus the optional
      constraints the form never touches. */
  datatype ContextConfig = ContextConfig(
    organization: Organization,
    product: Product,
    audience: Audience,
    objective: Objective,
    constraints: Option<Json>)

  /** The form's own state beside the context it edits. */
  datatype FormState = FormState(
    context: ContextConfig,
    selectedProductId: string,
    selectedAudienceId: string,
    creatingAudience: bool,
    interestInput: string)

  /** A catalogue product's description, named rather than spelled out. */
  datatype Blurb = AeroDashBlurb | SkyCourtBlurb | PulseBlurb

  /** The text of each catalogue description. */
  function BlurbText(b: Blurb): string {
    match b
    case AeroDashBlurb =>
      "AeroDash Pro is Voltra's everyday road runner built for high-mileage consistency. " +
      "A responsive nitrogen-infused foam delivers light rebound, while a sculpted stability rail keeps form tidy as fatigue sets in. " +
      "The engineered knit upper breathes in heat, locks down in corners, and resists stretch across long weeks of training. " +
      "A durable rubber outsole with decoupled crash pads smooths landings and improves grip on wet pavement. " +
      "Designed to transition from tempo runs to easy miles without swapping shoes, AeroDash Pro is the do-it-all trainer that helps runners stack days and chase personal bests in confident, minimalist style."
    case SkyCourtBlurb =>
      "SkyCourt Reactor is a lightweight, explosive court shoe for players who live above the rim. " +
      "A tensioned midfoot plate channels force for quicker first steps and vertical pop, while high-cut foam pods stabilize the ankle without bulky weight. " +
      "The upper blends ripstop mesh with targeted overlays for lockdown that moves cleanly with crossovers and step-backs. " +
      "A full-length herringbone outsole grips on dusty rec centers and pro-level hardwood alike. " +
      "From pickup to playoffs, SkyCourt Reactor turns energy into separation\U{2014}built for speed, control, and the moments that change momentum."
    case PulseBlurb =>
      "Voltra Pulse combines a minimalist wrist band with an adaptive coaching app to turn everyday workouts into measurable progress. " +
      "Real-time heart-rate zones, GPS run tracking, and cadence cues meet recovery scoring and personalized plans that adjust to sleep, stress, and training load. " +
      "The band's week-long battery, water resistance, and single-button UI keep friction low; the app layers in form tips, audio intervals, and community challenges. " +
      "Integrations with Apple Health/Google Fit make data portable, while privacy controls keep it personal. " +
      "Voltra Pulse is your steady coach\U{2014}quietly calibrating effort so athletes at any level can train smarter and feel improvement every week."
  }

  datatype CatalogProduct = CatalogProduct(id: string, name: string, description: Blurb)

  datatype CatalogAudience = CatalogAudience(
    id: string,
    name: string,
    ageRange: string,
    location: string,
    interests: seq<string>,
    tone: string)

  /** The products offered by the form. */
  const MockProducts: seq<CatalogProduct> :=
    [
      CatalogProduct("1", "AeroDash Pro \U{2014} Road Running Shoe", AeroDashBlurb),
      CatalogProduct("2", "SkyCourt Reactor \U{2014} Performance Basketball Shoe", SkyCourtBlurb),
      CatalogProduct("3", "Voltra Pulse \U{2014} Connected Training App + Band", PulseBlurb)
    ]

  /** The audiences offered by the form. */
  const MockAudiences: seq<CatalogAudience> :=
    [
      CatalogAudience("1", "Urban Runners 25\U{2013}34 Denver", "25\U{2013}34", "Denver, CO",
        ["run clubs", "5K\U{2013}half marathons", "early-morning workouts", "trail & road mix",
         "strength & mobility", "performance footwear"],
        "Bold")
    ]

  /** The tone a newly created audience starts with. */
  const DefaultTone: string := "Bold"

  /** `Array.prototype.find` as an index: the first position whose element
      satisfies `p`. */
  function FindFirst<T>(xs: seq<T>, p: T -> bool): (r: Option<nat>)
    ensures r.None? <==> forall i | 0 <= i < |xs| :: !p(xs[i])
    ensures r.Some? ==> r.value < |xs| && p(xs[r.value])
    ensures r.Some? ==> forall j | 0 <= j < r.value :: !p(xs[j])
  {
    if |xs| == 0 then None
    else if p(xs[0]) then Some(0)
    else match FindFirst(xs[1..], p)
      case None => None
      case Some(k) => Some(k + 1)
  }

  /** Any position that matches, with no match before it, is the one
      FindFirst returns. */
  lemma FirstFoundForAll<T>(xs: seq<T>, p: T -> bool)
    ensures forall k | 0 <= k < |xs| && p(xs[k]) && (forall j | 0 <= j < k :: !p(xs[j])) ::
              FindFirst(xs, p) == Some(k)
  {
  }

  /** `handleProductChange` over a catalogue whose description texts `describe`
      spells out: the selection always follows the id; a known id copies that
      product's name and description into the context, an unknown one leaves
      the context as it was. */
  function ProductChange(catalog: seq<CatalogProduct>, describe: Blurb -> string, st: FormState, id: string): (r: FormState)
    ensures r.selectedProductId == id
    ensures r.selectedAudienceId == st.selectedAudienceId && r.creatingAudience == st.creatingAudience
    ensures r.interestInput == st.interestInput
    ensures r.context.(product := st.context.product) == st.context
    ensures (forall i | 0 <= i < |catalog| :: catalog[i].id != id) ==> r.context == st.context
    ensures forall k | 0 <= k < |catalog| && catalog[k].id == id && (forall j | 0 <= j < k :: catalog[j].id != id) ::
              r.context.product == Product(catalog[k].name, describe(catalog[k].description))
  {
    var found := FindFirst(catalog, (c: CatalogProduct) => c.id == id);
    FirstFoundForAll(catalog, (c: CatalogProduct) => c.id == id);
    var product :=
      if found.Some? then Product(catalog[found.value].name, describe(catalog[found.value].description))
      else st.context.product;
    st.(selectedProductId := id, context := st.context.(product := product))
  }

  /** The audience a catalogue entry installs. */
  function AudienceOf(a: CatalogAudience): Audience {
    Audience(a.name, a.ageRange, a.location, a.interests, a.tone)
  }

  /** `handleAudienceChange` over a catalogue: the selection follows the id and
      audience creation ends; a known id installs that audience, an unknown one
      leaves the context as it was. */
  function AudienceChange(catalog: seq<CatalogAudience>, st: FormState, id: string): (r: FormState)
    ensures r.selectedAudienceId == id && !r.creatingAudience
    ensures r.selectedProductId == st.selectedProductId && r.interestInput == st.interestInput
    ensures r.context.(audience := st.context.audience) == st.context
    ensures (forall i | 0 <= i < |catalog| :: catalog[i].id != id) ==> r.context == st.context
    ensures forall k | 0 <= k < |catalog| && catalog[k].id == id && (forall j | 0 <= j < k :: catalog[j].id != id) ::
              r.context.audience == AudienceOf(catalog[k])
  {
    var found := FindFirst(catalog, (a: CatalogAudience) => a.id == id);
    FirstFoundForAll(catalog, (a: CatalogAudience) => a.id == id);
    var audience := if found.Some? then AudienceOf(catalog[found.value]) else st.context.audience;
    st.(selectedAudienceId := id, creatingAudience := false, context := st.context.(audience := audience))
  }

  /** `handleProductChange` with the form's catalogue: only the product part
      of the context can change, and an id outside the catalogue changes
      nothing but the selection. */
  function HandleProductChange(st: FormState, id: string): (r: FormState)
    ensures r.selectedProductId == id
    ensures r.selectedAudienceId == st.selectedAudienceId && r.creatingAudience == st.creatingAudience
    ensures r.context.(product := st.context.product) == st.context
    ensures id != "1" && id != "2" && id != "3" ==> r.context == st.context
  {
    ProductChange(MockProducts, BlurbText, st, id)
  }

  /** `handleAudienceChange` with the form's catalogue: picking the catalogue
      audience installs it whole, with its six interests; any other id keeps
      the current audience. */
  function HandleAudienceChange(st: FormState, id: string): (r: FormState)
    ensures r.selectedAudienceId == id && !r.creatingAudience
    ensures r.selectedProductId == st.selectedProductId
    ensures r.context.(audience := st.context.audience) == st.context
    ensures id != "1" ==> r.context == st.context
    ensures id == "1" ==> r.context.audience == AudienceOf(MockAudiences[0])
    ensures id == "1" ==> |r.context.audience.interests| == 6
  {
    AudienceChange(MockAudiences, st, id)
  }

  /** `handleCreateAudience`: deselect, enter creation mode, and reset the
      audience to blank fields, no interests and the default tone. */
  function HandleCreateAudience(st: FormState): (r: FormState)
    ensures r.selectedAudienceId == [] && r.creatingAudience
    ensures r.context.audience.name == [] && r.context.audience.ageRange == [] && r.context.audience.location == []
    ensures r.context.audience.interests == [] && r.context.audience.tone == DefaultTone
    ensures r.context.(audience := st.context.audience) == st.context
    ensures r.selectedProductId == st.selectedProductId && r.interestInput == st.interestInput
  {
    st.(selectedAudienceId := [], creatingAudience := true,
        context := st.context.(audience := Audience([], [], [], [], DefaultTone)))
  }

  /** The interests with one more chip. */
  function WithInterests(c: ContextConfig, interests: seq<string>): (r: ContextConfig)
    ensures r.audience.interests == interests
    ensures r.(audience := c.audience) == c
    ensures r.audience.(interests := c.audience.interests) == c.audience
  {
    c.(audience := c.audience.(interests := interests))
  }

  /** `addChip`: a value with any non-white character is trimmed and appended
      to the interests; a blank value changes nothing. Nothing but the
      interests ever changes. */
  function AddChip(c: ContextConfig, value: string): (r: ContextConfig)
    ensures AllWhite(value) ==> r == c
    ensures !AllWhite(value) ==>
              && |r.audience.interests| == |c.audience.interests| + 1
              && r.audience.interests[..|c.audience.interests|] == c.audience.interests
              && r.audience.interests[|c.audience.interests|] == Trim(value)
    ensures r.audience.(interests := c.audience.interests) == c.audience
    ensures r.(audience := c.audience) == c
  {
    var v := Trim(value);
    if v != [] then WithInterests(c, c.audience.interests + [v]) else c
  }

  /** `.filter((_, i) => i !== index)`: keeps every element whose position
      differs from `index`. */
  function FilterIndex<T>(s: seq<T>, index: int): seq<T> {
    if |s| == 0 then []
    else (if index == 0 then [] else [s[0]]) + FilterIndex(s[1..], index - 1)
  }

  /** Filtering out a position deletes exactly that element and keeps the
      others in order; a position outside the list deletes nothing. */
  lemma {:induction false} FilterIndexDeletes<T>(s: seq<T>, index: int)
    ensures FilterIndex(s, index) == if 0 <= index < |s| then s[..index] + s[index + 1..] else s
  {
    if |s| > 0 {
      FilterIndexDeletes(s[1..], index - 1);
      if index == 0 {
        assert s[1..] == s[..0] + s[1..];
      } else if 0 < index < |s| {
        assert s[..index] == [s[0]] + s[1..][..index - 1];
        assert s[index + 1..] == s[1..][index..];
      } else {
        assert s == [s[0]] + s[1..];
      }
    }
  }

  /** `removeChip`: deletes the interest at `index`, keeps the rest in order,
      and ignores an index outside the list. Nothing but the interests
      changes. */
  function RemoveChip(c: ContextConfig, index: int): (r: ContextConfig)
    ensures var s := c.audience.interests;
            r.audience.interests == if 0 <= index < |s| then s[..index] + s[index + 1..] else s
    ensures r.audience.(interests := c.audience.interests) == c.audience
    ensures r.(audience := c.audience) == c
  {
    FilterIndexDeletes(c.audience.interests, index);
    WithInterests(c, FilterIndex(c.audience.interests, index))
  }

  /** Removing the chip just added restores the context. */
  lemma AddThenRemove(c: ContextConfig, value: string)
    ensures RemoveChip(AddChip(c, value), |c.audience.interests|) == c
  {
    var a := AddChip(c, value);
    var n := |c.audience.interests|;
    if !AllWhite(value) {
      assert a.audience.interests[..n] + a.audience.interests[n + 1..] == c.audience.interests;
    }
  }

  /** Submitting the interest field, by Enter or by the Add button: add the
      buffer as a chip, then clear the buffer. */
  function SubmitInterest(st: FormState): (r: FormState)
    ensures r.interestInput == []
    ensures r.context == AddChip(st.context, st.interestInput)
    ensures r.(context := st.context, interestInput := st.interestInput) == st
  {
    st.(context := AddChip(st.context, st.interestInput), interestInput := [])
  }
}
