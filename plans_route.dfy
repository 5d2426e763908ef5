/**
 * The demo `POST /api/plans` route: it validates the destination and answers
 * with a fixed three-day timeline.
 */
module PlansRoute {
  import opened Options
  import opened JsonValue
  import opened Text

  datatype DayPlan = DayPlan(title: string, details: string)

  datatype Body =
    | MessageBody(message: string)
    | PlanBody(destination: string, timeline: seq<DayPlan>, notes: string)

  /** The route's answer, or an exception, which Next.js turns into HTTP 500. */
  datatype RouteResult = Responded(status: nat, body: Body) | Threw

  const DemoTimeline: seq<DayPlan> := [
    DayPlan("Day 1 \U{2014} Arrival & Old Town",
            "Check in, explore the historic district, and grab dinner at a neighborhood spot."),
    DayPlan("Day 2 \U{2014} Museums & Waterfront",
            "Morning at a local museum, afternoon stroll along the waterfront, sunset viewpoints."),
    DayPlan("Day 3 \U{2014} Day Trip Adventure",
            "Short train ride to nearby villages, sample regional food, and head back in the evening.")
  ]

  const DemoNotes: string := "This is a demo response. Connect your Gemini-powered backend to return live plans."

  const DestinationRequired: string := "Destination is required."

  /** The value of `body.destination?.trim()`. */
  datatype Destination =
    | Undefined             // the property is missing or null: the optional chain stops
    | Trimmed(text: string) // a string, trimmed
    | NotTrimmable          // `body` is null, or the property has no `trim` method: a TypeError

  function ReadDestination(body: Json): Destination {
    if body.JNull? then NotTrimmable
    else match Property(body, "destination")
      case None => Undefined
      case Some(JNull) => Undefined
      case Some(JStr(s)) => Trimmed(JsTrim(s))
      case Some(_) => NotTrimmable
  }

  /** The body the pages send: `{ destination }`. */
  function DestinationBody(destination: string): Json {
    JObj(map["destination" := JStr(destination)])
  }

  /**
   * `POST`: `request` is the body as `request.json()` parsed it (None when it
   * is not JSON, which throws). A destination that is missing, null or blank
   * is answered with 400 and a fixed message; any other string with 200, the
   * trimmed destination, the fixed timeline and the fixed notes.
   */
  function Post(request: Option<Json>): (r: RouteResult)
    ensures r.Threw? <==> request.None? || ReadDestination(request.value).NotTrimmable?
    ensures r == Responded(400, MessageBody(DestinationRequired)) <==>
      request.Some? && ReadDestination(request.value) in {Undefined, Trimmed("")}
    ensures r.Responded? ==> r.status == 200 || r == Responded(400, MessageBody(DestinationRequired))
    ensures r.Responded? && r.status == 200 ==>
      && r.body.PlanBody?
      && ReadDestination(request.value) == Trimmed(r.body.destination)
      && r.body.destination != ""
      && IsStripped(r.body.destination, JsWhitespace)
      && r.body.timeline == DemoTimeline && |r.body.timeline| == 3
      && r.body.notes == DemoNotes
  {
    if request.None? then Threw
    else match ReadDestination(request.value)
      case NotTrimmable => Threw
      case Undefined => Responded(400, MessageBody(DestinationRequired))
      case Trimmed(d) =>
        if d == "" then Responded(400, MessageBody(DestinationRequired))
        else Responded(200, PlanBody(d, DemoTimeline, DemoNotes))
  }

  /**
   * Sending an already trimmed destination changes nothing: the route answers
   * `{destination: s}` and `{destination: s.trim()}` alike.
   */
  lemma PostIgnoresPretrimming(s: string)
    ensures Post(Some(DestinationBody(JsTrim(s)))) == Post(Some(DestinationBody(s)))
  {
    PretrimmedDestinationReadsAlike(s);
  }

  lemma PretrimmedDestinationReadsAlike(s: string)
    ensures ReadDestination(DestinationBody(JsTrim(s))) == ReadDestination(DestinationBody(s))
  {
    StripIdempotent(s, JsWhitespace);
    DestinationBodyReads(JsTrim(s));
    DestinationBodyReads(s);
  }

  lemma DestinationBodyReads(s: string)
    ensures ReadDestination(DestinationBody(s)) == Trimmed(JsTrim(s))
  {
    assert Property(DestinationBody(s), "destination") == Some(JStr(s));
  }
}
