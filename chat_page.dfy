/**
 * The chat page of the front end: where requests go, when the form may be
 * sent, and how the conversation, the loading flag and the error change when a
 * message is sent and its answer (or failure) arrives.
 */
module ChatPage {
  import opened Options
  import opened JsonValue
  import opened Text
  import opened Http
  import Backend

  const DefaultRoute: string := "/api/generate"

  /**
   * `API_ROUTE`: the configured backend URL with one trailing `/` removed, then
   * `/generate`; the same-origin route when the setting is absent or becomes
   * empty.
   */
  function ResolveApiRoute(configured: Option<string>): (route: string)
    ensures configured.None? || configured.value in {"", "/"} ==> route == DefaultRoute
    ensures configured.Some? && configured.value != "" && configured.value[|configured.value| - 1] != '/' ==>
      route == configured.value + "/generate"
    ensures configured.Some? && |configured.value| >= 2 && configured.value[|configured.value| - 1] == '/' ==>
      route == configured.value[..|configured.value| - 1] + "/generate"
  {
    match configured
    case None => DefaultRoute
    case Some(url) =>
      var base := if url != "" && url[|url| - 1] == '/' then url[..|url| - 1] else url;
      if base == "" then DefaultRoute else base + "/generate"
  }

  datatype Role = User | Assistant

  /** A conversation entry; `text` and `references` hold whatever the backend sent. */
  datatype ChatEntry = ChatEntry(role: Role, text: Json, references: Option<Json>)

  const NoAnswer: string := "(No answer returned)"

  /** V8's message for reading `answer` from a `null` response body. */
  const NullBodyMessage: string := "Cannot read properties of null (reading 'answer')"

  /** `Backend error: HTTP <status> — <detail or "unknown">`. */
  function BackendErrorMessage(status: nat, detail: string): string {
    "Backend error: HTTP " + NatToString(status) + " \U{2014} " + (if detail == "" then "unknown" else detail)
  }

  /** The message carries the status: its digits, read back, give `status`. */
  lemma BackendErrorMessageStatus(status: nat, detail: string)
    ensures var m := BackendErrorMessage(status, detail);
      var digits := NatToString(status);
      && m[..20] == "Backend error: HTTP "
      && m[20..20 + |digits|] == digits
      && DigitsValue(m[20..20 + |digits|]) == status
  {
    NatToStringRoundTrip(status);
  }

  /** How one request ends: an assistant entry to append, or an error message. */
  datatype SendOutcome = Answered(entry: ChatEntry) | Failed(message: string)

  /**
   * The try/catch of `sendMessage`. A non-ok status fails with the status and
   * the body text; a body that does not parse fails with the parser's message;
   * otherwise the answer becomes an assistant entry, with the placeholder text
   * when `answer` is falsy and an empty list when `references` is.
   */
  function Outcome(result: FetchResult): (o: SendOutcome)
    ensures o.Answered? <==>
      result.Received? && IsOk(result.status) && result.json.Parsed? && !result.json.value.JNull?
    ensures result.Rejected? ==> o == Failed(result.message)
    ensures result.Received? && !IsOk(result.status) ==>
      o == Failed(BackendErrorMessage(result.status, result.text))
    ensures result.Received? && IsOk(result.status) && result.json.Malformed? ==>
      o == Failed(result.json.message)
    ensures o.Answered? ==>
      && o.entry.role == Assistant
      && JsTruthy(Some(o.entry.text))
      && o.entry.references.Some? && JsTruthy(o.entry.references)
      && (JsTruthy(Property(result.json.value, "answer")) ==>
            o.entry.text == Property(result.json.value, "answer").value)
      && (!JsTruthy(Property(result.json.value, "answer")) ==> o.entry.text == JStr(NoAnswer))
      && (var refs := Property(result.json.value, "references");
          o.entry.references == Some(if JsTruthy(refs) then refs.value else JArr([])))
  {
    match result
    case Rejected(message) => Failed(message)
    case Received(status, text, json) =>
      if !IsOk(status) then Failed(BackendErrorMessage(status, text))
      else match json
        case Malformed(message) => Failed(message)
        case Parsed(data) =>
          if data.JNull? then Failed(NullBodyMessage)
          else
            var answer := Property(data, "answer");
            var references := Property(data, "references");
            Answered(ChatEntry(
              Assistant,
              if JsTruthy(answer) then answer.value else JStr(NoAnswer),
              Some(if JsTruthy(references) then references.value else JArr([]))))
  }

  /** The request body `{ query }`. */
  function QueryBody(query: string): Json {
    JObj(map["query" := JStr(query)])
  }

  /** A user entry holds a non-blank, trimmed string. */
  predicate WellFormedUserEntry(e: ChatEntry) {
    e.role == User ==> e.text.JStr? && e.text.s != "" && IsStripped(e.text.s, JsWhitespace)
  }

  /** The state of the chat page component. */
  class ChatPage {
    const apiRoute: string
    var message: string
    var history: seq<ChatEntry>
    var loading: bool
    var error: Option<string>

    /** Every user entry in the history is a trimmed, non-blank message. */
    ghost predicate Valid()
      reads this
    {
      forall i :: 0 <= i < |history| ==> WellFormedUserEntry(history[i])
    }

    constructor (backendUrl: Option<string>)
      ensures Valid()
      ensures apiRoute == ResolveApiRoute(backendUrl)
      ensures message == "" && history == [] && !loading && error == None
    {
      apiRoute := ResolveApiRoute(backendUrl);
      message := "";
      history := [];
      loading := false;
      error := None;
    }

    /** `canSubmit`: the message holds a non-whitespace character and no request is in flight. */
    predicate CanSubmit()
      reads this
      ensures CanSubmit() <==> !loading && exists i :: 0 <= i < |message| && message[i] !in JsWhitespace
    {
      JsTrim(message) != "" && !loading
    }

    /** Typing in the text area. */
    method EditMessage(text: string)
      modifies this
      ensures message == text
      ensures history == old(history) && loading == old(loading) && error == old(error)
    {
      message := text;
    }

    /**
     * The synchronous part of `sendMessage`, up to the request. When the form
     * may not be sent nothing changes and no request goes out; otherwise the
     * trimmed message is appended as a user entry and sent, the text area is
     * cleared, `loading` is set and the error cleared.
     */
    method BeginSend() returns (request: Option<Request>)
      requires Valid()
      modifies this
      ensures Valid()
      ensures !old(CanSubmit()) ==>
        request == None && message == old(message) && history == old(history) &&
        loading == old(loading) && error == old(error)
      ensures old(CanSubmit()) ==>
        && request == Some(Request(apiRoute, QueryBody(JsTrim(old(message)))))
        && history == old(history) + [ChatEntry(User, JStr(JsTrim(old(message))), None)]
        && message == "" && loading && error == None
    {
      if !CanSubmit() {
        return None;
      }
      var outbound := JsTrim(message);
      StripIdempotent(message, JsWhitespace);
      history := history + [ChatEntry(User, JStr(outbound), None)];
      message := "";
      loading := true;
      error := None;
      request := Some(Request(apiRoute, QueryBody(outbound)));
    }

    /**
     * The rest of `sendMessage` once the request settles: an answer appends one
     * assistant entry, a failure sets the error and leaves the history alone,
     * and `loading` is cleared either way.
     */
    method FinishSend(result: FetchResult)
      requires Valid()
      modifies this
      ensures Valid()
      ensures !loading && message == old(message)
      ensures Outcome(result).Answered? ==>
        history == old(history) + [Outcome(result).entry] && error == old(error)
      ensures Outcome(result).Failed? ==>
        history == old(history) && error == Some(Outcome(result).message)
    {
      var outcome := Outcome(result);
      match outcome {
        case Answered(entry) =>
          history := history + [entry];
        case Failed(m) =>
          error := Some(m);
      }
      loading := false;
    }
  }

  /**
   * The body this page sends carries no `date`, which the backend's request
   * declaration requires: every message is refused with 422 before the
   * backend's handler runs.
   */
  lemma QueryBodyRefusedByBackend(query: string)
    ensures Backend.ValidateGenerateRequest(QueryBody(query)).None?
  {
  }

  /** With `date` optional, the same body is accepted and the query reaches the handler. */
  lemma QueryBodyAcceptedWithOptionalDate(query: string)
    ensures Backend.ValidateGenerateRequestDateOptional(QueryBody(query)) ==
      Some(Backend.GenerateRequest(query, ""))
  {
  }
}
