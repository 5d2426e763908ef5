/**
 * The single-shot planner page: one destination field, one request to the
 * demo route, and the plan or an error shown below.
 */
module FormPage {
  import opened Options
  import opened JsonValue
  import opened Text
  import opened Http
  import PlansRoute

  const PlansUrl: string := "/api/plans"

  const InitialDestination: string := "Lisbon, Portugal"

  /** The error `generatePlans` throws for a response that is not ok. */
  function HttpErrorMessage(status: nat): string {
    "Backend error: HTTP " + NatToString(status)
  }

  /** The message ends in the status and nothing else: its digits, read back, give `status`. */
  lemma HttpErrorMessageStatus(status: nat)
    ensures var m := HttpErrorMessage(status);
      && |m| > 20
      && m[..20] == "Backend error: HTTP "
      && IsDigits(m[20..])
      && DigitsValue(m[20..]) == status
  {
    NatToStringRoundTrip(status);
    assert HttpErrorMessage(status)[20..] == NatToString(status);
  }

  /** How `generatePlans` ends: the parsed plan, or the message of the Error it threw. */
  datatype PlanOutcome = Loaded(plan: Json) | Failed(message: string)

  /**
   * `generatePlans` as the handler sees it. A response that is not ok fails
   * with the status alone (its body is never read); an ok response yields its
   * parsed body unchecked; a rejected fetch or an unparsable body fails with
   * that error's message.
   */
  function GeneratePlans(result: FetchResult): (o: PlanOutcome)
    ensures o.Loaded? <==> result.Received? && IsOk(result.status) && result.json.Parsed?
    ensures o.Loaded? ==> o.plan == result.json.value
    ensures result.Received? && !IsOk(result.status) ==> o == Failed(HttpErrorMessage(result.status))
    ensures result.Rejected? ==> o == Failed(result.message)
    ensures result.Received? && IsOk(result.status) && result.json.Malformed? ==>
      o == Failed(result.json.message)
  {
    match result
    case Rejected(message) => Failed(message)
    case Received(status, _, json) =>
      if !IsOk(status) then Failed(HttpErrorMessage(status))
      else match json
        case Malformed(message) => Failed(message)
        case Parsed(value) => Loaded(value)
  }

  /** The state of the page component; `plan` is `JNull` when no plan is shown. */
  class FormPage {
    var destination: string
    var plan: Json
    var error: Option<string>
    var isLoading: bool

    constructor ()
      ensures destination == InitialDestination && plan == JNull && error == None && !isLoading
    {
      destination := InitialDestination;
      plan := JNull;
      error := None;
      isLoading := false;
    }

    /**
     * The submit button is enabled. This, and the browser's `required` check
     * that the field is not empty, are the only guards: the handler has none.
     */
    predicate SubmitEnabled()
      reads this
    {
      !isLoading
    }

    method EditDestination(text: string)
      modifies this
      ensures destination == text
      ensures plan == old(plan) && error == old(error) && isLoading == old(isLoading)
    {
      destination := text;
    }

    /**
     * The start of `handleSubmit`: it sets the loading flag, clears the error
     * and sends the trimmed destination, whatever the state, even while a
     * request is already in flight. The plan on screen stays until the answer.
     */
    method BeginSubmit() returns (request: Request)
      modifies this
      ensures isLoading && error == None
      ensures destination == old(destination) && plan == old(plan)
      ensures request == Request(PlansUrl, PlansRoute.DestinationBody(JsTrim(old(destination))))
    {
      isLoading := true;
      error := None;
      request := Request(PlansUrl, PlansRoute.DestinationBody(JsTrim(destination)));
    }

    /**
     * The rest of `handleSubmit`: a plan replaces the previous one; a failure
     * discards the previous plan and shows the message; the loading flag is
     * cleared either way.
     */
    method FinishSubmit(result: FetchResult)
      modifies this
      ensures !isLoading && destination == old(destination)
      ensures GeneratePlans(result).Loaded? ==> plan == GeneratePlans(result).plan && error == old(error)
      ensures GeneratePlans(result).Failed? ==> plan == JNull && error == Some(GeneratePlans(result).message)
    {
      var outcome := GeneratePlans(result);
      match outcome {
        case Loaded(p) =>
          plan := p;
        case Failed(m) =>
          plan := JNull;
          error := Some(m);
      }
      isLoading := false;
    }
  }

  /**
   * A destination that trims to empty is sent as "", is refused by the demo
   * route with 400, and a 400 answer shows "Backend error: HTTP 400".
   */
  lemma BlankDestinationShows400(destination: string, text: string, json: JsonBody)
    requires JsTrim(destination) == ""
    ensures PlansRoute.Post(Some(PlansRoute.DestinationBody(JsTrim(destination)))) ==
      PlansRoute.Responded(400, PlansRoute.MessageBody(PlansRoute.DestinationRequired))
    ensures GeneratePlans(Received(400, text, json)) == Failed("Backend error: HTTP 400")
  {
    assert NatToString(400) == "400" by {
      assert NatToString(4) == "4";
      assert NatToString(40) == "40";
    }
  }

  /**
   * Any other destination comes back from the demo route as a plan for the
   * trimmed destination with the fixed timeline and notes.
   */
  lemma FilledDestinationGetsDemoPlan(destination: string)
    requires JsTrim(destination) != ""
    ensures PlansRoute.Post(Some(PlansRoute.DestinationBody(JsTrim(destination)))) ==
      PlansRoute.Responded(200, PlansRoute.PlanBody(JsTrim(destination), PlansRoute.DemoTimeline, PlansRoute.DemoNotes))
  {
    StripIdempotent(destination, JsWhitespace);
  }
}
