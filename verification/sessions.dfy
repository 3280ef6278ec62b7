/** The session list's presentation logic: relative-time labels and the
    summary of each stored session. The clock is a parameter: every time is an
    integer count of milliseconds. */
module Sessions {
  import opened Basics
  import opened Json
  import opened JsText

  datatype TimeUnit = Minutes | Hours | Days | Weeks | Months

  /** The length of one unit in seconds; it is also the first elapsed time
      that unit's bucket covers. */
  function UnitSeconds(u: TimeUnit): nat {
    match u
    case Minutes => 60
    case Hours => 3600
    case Days => 86400
    case Weeks => 604800
    case Months => 2592000
  }

  /** The first elapsed time past a unit's bucket; months have no end. */
  function BucketEnd(u: TimeUnit): Option<nat> {
    match u
    case Minutes => Some(3600)
    case Hours => Some(86400)
    case Days => Some(604800)
    case Weeks => Some(2592000)
    case Months => None
  }

  function Suffix(u: TimeUnit): string {
    match u
    case Minutes => "m ago"
    case Hours => "h ago"
    case Days => "d ago"
    case Weeks => "w ago"
    case Months => "mo ago"
  }

  /** A relative-time label: "just now", or a count of whole units. */
  datatype TimeAgo = JustNow | Ago(count: nat, unit: TimeUnit)

  /** The bucket `formatTimeAgo` chooses for an elapsed time in whole seconds:
      a future or sub-minute time is "just now"; otherwise the unit whose
      bucket holds the time, counted in whole units. */
  function Bucket(seconds: int): (t: TimeAgo)
    ensures t.JustNow? <==> seconds < 60
    ensures t.Ago? ==> UnitSeconds(t.unit) <= seconds
    ensures t.Ago? && BucketEnd(t.unit).Some? ==> seconds < BucketEnd(t.unit).value
    ensures t.Ago? ==> t.count * UnitSeconds(t.unit) <= seconds < (t.count + 1) * UnitSeconds(t.unit)
  {
    if seconds < 60 then JustNow
    else if seconds < 3600 then Ago(seconds / 60, Minutes)
    else if seconds < 86400 then Ago(seconds / 3600, Hours)
    else if seconds < 604800 then Ago(seconds / 86400, Days)
    else if seconds < 2592000 then Ago(seconds / 604800, Weeks)
    else Ago(seconds / 2592000, Months)
  }

  /** The label's text. */
  function Render(t: TimeAgo): (r: string)
    ensures |r| > 0 && (IsDigit(r[0]) <==> t.Ago?)
  {
    match t
    case JustNow => "just now"
    case Ago(n, u) => Decimal(n) + Suffix(u)
  }

  /** `formatTimeAgo`, given the milliseconds elapsed since the session was
      created: whole seconds rounded down, then bucketed and rendered. */
  function FormatTimeAgo(elapsedMs: int): (r: string)
    ensures |r| > 0 && (IsDigit(r[0]) <==> elapsedMs / 1000 >= 60)
    ensures elapsedMs / 1000 < 60 ==> r == "just now"
  {
    Render(Bucket(elapsedMs / 1000))
  }

  /** The counts in each bucket stay inside the bucket's range: 1 to 59
      minutes, 1 to 23 hours, 1 to 6 days, 1 to 4 weeks, at least 1 month. */
  lemma BucketCounts(seconds: int)
    ensures var t := Bucket(seconds);
            t.Ago? ==> 1 <= t.count && (t.unit.Minutes? ==> t.count <= 59) && (t.unit.Hours? ==> t.count <= 23)
                       && (t.unit.Days? ==> t.count <= 6) && (t.unit.Weeks? ==> t.count <= 4)
  {
  }

  /** Different labels have different texts. */
  lemma {:induction false} RenderInjective(a: TimeAgo, b: TimeAgo)
    ensures Render(a) == Render(b) <==> a == b
  {
    if Render(a) == Render(b) {
      if a.Ago? && b.Ago? {
        DecimalThenSuffix(a.count, Suffix(a.unit), b.count, Suffix(b.unit));
      }
    }
  }

  /** Two elapsed times get the same label exactly when they fall in the same
      bucket with the same count. */
  lemma SameLabelIff(ms1: int, ms2: int)
    ensures FormatTimeAgo(ms1) == FormatTimeAgo(ms2) <==> Bucket(ms1 / 1000) == Bucket(ms2 / 1000)
  {
    RenderInjective(Bucket(ms1 / 1000), Bucket(ms2 / 1000));
  }

  /** "just now" exactly when less than a minute has elapsed, including times
      in the future. */
  lemma JustNowIff(elapsedMs: int)
    ensures FormatTimeAgo(elapsedMs) == "just now" <==> elapsedMs / 1000 < 60
  {
    RenderInjective(Bucket(elapsedMs / 1000), JustNow);
  }

  /** Between one minute and one hour the label is the whole minutes,
      from 1 to 59, followed by "m ago". */
  lemma MinutesLabel(elapsedMs: int)
    requires 60 <= elapsedMs / 1000 < 3600
    ensures var n := (elapsedMs / 1000) / 60;
            1 <= n <= 59 && FormatTimeAgo(elapsedMs) == Decimal(n) + "m ago"
  {
  }

  /** A message of a session, as the list query returns it. */
  datatype MessageRow = MessageRow(id: string, msgType: string)

  /** A session row with its messages; `context` is the stored JSON and
      `messages` is None when the relation came back null. */
  datatype SessionRow = SessionRow(
    id: string,
    prompt: string,
    createdAtMs: int,
    context: Json,
    messages: Option<seq<MessageRow>>)

  /** The card shown for one session. Product, audience and objective are the
      stored JSON values, which are strings in well-formed rows. */
  datatype SessionDisplay = SessionDisplay(
    id: string,
    prompt: string,
    ideasCount: nat,
    developedCount: nat,
    createdAt: string,
    product: Json,
    audience: Json,
    objective: Json)

  const NotAvailable: Json := JStr("N/A")

  /** `messages.filter(m => m.type === t)`. */
  function OfType(ms: seq<MessageRow>, t: string): (r: seq<MessageRow>)
    ensures |r| <= |ms|
    ensures forall m <- r :: m.msgType == t && m in ms
    ensures forall m <- ms :: m.msgType == t ==> m in r
  {
    if |ms| == 0 then []
    else (if ms[0].msgType == t then [ms[0]] else []) + OfType(ms[1..], t)
  }

  /** The filter keeps every message of type `t` as often as it occurs, and
      no other message: the card's counts are the numbers of messages of
      each type. */
  lemma {:induction false} OfTypeMultiplicity(ms: seq<MessageRow>, t: string)
    ensures forall m :: multiset(OfType(ms, t))[m] == if m.msgType == t then multiset(ms)[m] else 0
  {
    if |ms| > 0 {
      OfTypeMultiplicity(ms[1..], t);
      assert ms == [ms[0]] + ms[1..];
    }
  }

  /** No message is counted both as ideas and as a concept: the two counts
      together never exceed the number of messages. */
  lemma {:induction false} CountsBounded(ms: seq<MessageRow>)
    ensures |OfType(ms, "idea_list")| + |OfType(ms, "concept")| <= |ms|
  {
    if |ms| > 0 {
      CountsBounded(ms[1..]);
    }
  }

  /** `x?.name || "N/A"` on the stored context, one level down at `key`. */
  function NameOrNA(context: Json, key: string): (r: Json)
    ensures var name := GetOpt(GetOpt(Some(context), key), "name");
            (Present(name) ==> r == name.value) && (!Present(name) ==> r == NotAvailable)
  {
    var ctx := Or(Some(context), EmptyObject);
    Or(GetOpt(Get(ctx, key).value, "name"), NotAvailable)
  }

  /** The summary of one session row. */
  function Summarize(row: SessionRow, nowMs: int): (d: SessionDisplay)
    ensures d.id == row.id && d.prompt == row.prompt
    ensures d.createdAt == FormatTimeAgo(nowMs - row.createdAtMs)
    ensures var ms := row.messages.GetOr([]);
            d.ideasCount == |OfType(ms, "idea_list")| && d.developedCount == |OfType(ms, "concept")|
            && d.ideasCount + d.developedCount <= |ms|
    ensures d.product == NameOrNA(row.context, "product") && d.audience == NameOrNA(row.context, "audience")
    ensures var objective := GetOpt(Some(row.context), "objective");
            (Present(objective) ==> d.objective == objective.value) && (!Present(objective) ==> d.objective == NotAvailable)
  {
    var ms := row.messages.GetOr([]);
    CountsBounded(ms);
    var ctx := Or(Some(row.context), EmptyObject);
    SessionDisplay(
      row.id,
      row.prompt,
      |OfType(ms, "idea_list")|,
      |OfType(ms, "concept")|,
      FormatTimeAgo(nowMs - row.createdAtMs),
      NameOrNA(row.context, "product"),
      NameOrNA(row.context, "audience"),
      Or(Get(ctx, "objective").value, NotAvailable))
  }

  /** The session list: one card per row, in the rows' order; a null result is
      an empty list. */
  function Transform(rows: Option<seq<SessionRow>>, nowMs: int): (r: seq<SessionDisplay>)
    ensures |r| == |rows.GetOr([])|
    ensures forall i | 0 <= i < |r| :: r[i] == Summarize(rows.value[i], nowMs)
  {
    var rs := rows.GetOr([]);
    seq(|rs|, i requires 0 <= i < |rs| => Summarize(rs[i], nowMs))
  }
}
