/**
 * The request side of `callClaudeAPI`: the message window sent to the
 * completion service, and the classification of what comes back into a reply
 * text or an error message. The HTTP exchange itself is a value the caller
 * supplies.
 */
module Api {
  import opened Wrappers
  import opened JsText
  import opened Sessions
  import Topics

  /** `{ role, content }` as sent to the service. */
  datatype ApiMessage = ApiMessage(role: Role, content: JsString)

  /** Messages kept by `slice(-20)`. */
  const WINDOW_SIZE: nat := 20

  // "[Context: "
  const CONTEXT_OPEN: JsString := [91, 67, 111, 110, 116, 101, 120, 116, 58, 32]
  // "]\n\n"
  const CONTEXT_CLOSE: JsString := [93, 10, 10]

  /** `m.role === 'bot' ? 'assistant' : m.role` */
  function ApiRole(role: Role): (r: Role)
    ensures r != Bot
    ensures role == Bot ==> r == Assistant
    ensures role != Bot ==> r == role
  {
    if role == Bot then Assistant else role
  }

  /** The text sent for the newest message: the user's text, behind a
    * "[Context: label]" line and a blank line unless the topic is the default
    * one. It always ends with the text, and equals it exactly for the default
    * topic. */
  function Contextual(topic: JsString, topicLabel: JsString, text: JsString): (c: JsString)
    ensures |text| <= |c| && c[|c| - |text|..] == text
    ensures c == text <==> topic == Topics.DEFAULT_TOPIC
    ensures topic != Topics.DEFAULT_TOPIC ==> c == CONTEXT_OPEN + topicLabel + CONTEXT_CLOSE + text
  {
    if topic != Topics.DEFAULT_TOPIC then CONTEXT_OPEN + topicLabel + CONTEXT_CLOSE + text else text
  }

  /** The number of transcript messages the window keeps. */
  function WindowLength(n: nat): (w: nat)
    ensures w <= n && w <= WINDOW_SIZE && (w == n || w == WINDOW_SIZE)
  {
    if n < WINDOW_SIZE then n else WINDOW_SIZE
  }

  /** `apiMessages`: the last 20 messages (all of them when fewer), oldest
    * first, roles mapped, contents kept, except that the newest one carries
    * the contextual text of `userMessage`. */
  function BuildWindow(ms: seq<Message>, topic: JsString, topicLabel: JsString, userMessage: JsString)
    : (w: seq<ApiMessage>)
    ensures |w| == WindowLength(|ms|)
    ensures forall i {:trigger w[i]} :: 0 <= i < |w| ==> w[i].role == ApiRole(ms[|ms| - |w| + i].role)
    ensures forall i {:trigger w[i]} :: 0 <= i < |w| - 1 ==> w[i].content == ms[|ms| - |w| + i].content
    ensures w != [] ==> w[|w| - 1].content == Contextual(topic, topicLabel, userMessage)
  {
    var tail := ms[|ms| - WindowLength(|ms|)..];
    var mapped := seq(|tail|, i requires 0 <= i < |tail| => ApiMessage(ApiRole(tail[i].role), tail[i].content));
    if mapped == [] then mapped
    else mapped[|mapped| - 1 := mapped[|mapped| - 1].(content := Contextual(topic, topicLabel, userMessage))]
  }

  /** For the default topic, when the newest message is the one just sent, the
    * window is the tail of the transcript with roles mapped and nothing else
    * changed; no message of the window is ever `Bot`. */
  lemma DefaultTopicWindowIsTranscript(ms: seq<Message>, topicLabel: JsString, text: JsString)
    requires ms != [] && ms[|ms| - 1].content == text
    ensures var w := BuildWindow(ms, Topics.DEFAULT_TOPIC, topicLabel, text);
      && (forall i :: 0 <= i < |w| ==> w[i] == ApiMessage(ApiRole(ms[|ms| - |w| + i].role), ms[|ms| - |w| + i].content))
      && (forall i :: 0 <= i < |w| ==> w[i].role != Bot)
  {
  }

  // ---------------------------------------------------------------------------
  // Response classification
  // ---------------------------------------------------------------------------

  /** What the request produced. `Rejected` is an exception raised before a
    * status was looked at or while parsing a successful response's body (its
    * message is kept); `Responded` carries the status, the body's
    * `error.message` and `content[0].text` when present (both absent when the
    * body is not JSON). */
  datatype Exchange =
    | Rejected(message: JsString)
    | Responded(status: nat, errorMessage: Option<JsString>, firstText: Option<JsString>)

  /** What `callClaudeAPI` resolves to (`Reply`) or rejects with (`Failed`). */
  datatype CallResult = Reply(text: JsString) | Failed(message: JsString)

  /** `response.ok` */
  predicate IsOk(status: nat)
  {
    200 <= status <= 299
  }

  /** A present, non-empty string: what `||` keeps. */
  predicate Truthy(o: Option<JsString>)
  {
    o.Some? && o.value != []
  }

  // "Invalid API key. Please check your Anthropic API key."
  const INVALID_KEY: JsString := [73, 110, 118, 97, 108, 105, 100, 32, 65, 80, 73, 32, 107, 101, 121, 46, 32, 80, 108, 101, 97, 115, 101, 32, 99, 104, 101, 99, 107, 32, 121, 111, 117, 114, 32, 65, 110, 116, 104, 114, 111, 112, 105, 99, 32, 65, 80, 73, 32, 107, 101, 121, 46]
  // "Rate limit reached. Please wait a moment and try again."
  const RATE_LIMITED: JsString := [82, 97, 116, 101, 32, 108, 105, 109, 105, 116, 32, 114, 101, 97, 99, 104, 101, 100, 46, 32, 80, 108, 101, 97, 115, 101, 32, 119, 97, 105, 116, 32, 97, 32, 109, 111, 109, 101, 110, 116, 32, 97, 110, 100, 32, 116, 114, 121, 32, 97, 103, 97, 105, 110, 46]
  // "No response received."
  const NO_RESPONSE: JsString := [78, 111, 32, 114, 101, 115, 112, 111, 110, 115, 101, 32, 114, 101, 99, 101, 105, 118, 101, 100, 46]
  // "API error: "
  const API_ERROR: JsString := [65, 80, 73, 32, 101, 114, 114, 111, 114, 58, 32]

  /** `data.content?.[0]?.text || 'No response received.'`: never empty. */
  function ReplyText(firstText: Option<JsString>): (t: JsString)
    ensures t != []
    ensures Truthy(firstText) ==> t == firstText.value
    ensures !Truthy(firstText) ==> t == NO_RESPONSE
  {
    if Truthy(firstText) then firstText.value else NO_RESPONSE
  }

  /** The error for a response that is not ok: fixed texts for 401 and 429
    * whatever the server said, otherwise the server's message, otherwise
    * "API error: " and the status. Never empty. */
  function ErrorMessage(status: nat, serverMessage: Option<JsString>): (m: JsString)
    ensures m != []
    ensures status == 401 ==> m == INVALID_KEY
    ensures status == 429 ==> m == RATE_LIMITED
    ensures status != 401 && status != 429 && Truthy(serverMessage) ==> m == serverMessage.value
    ensures status != 401 && status != 429 && !Truthy(serverMessage) ==>
      m == API_ERROR + NatToDecimal(status)
  {
    if status == 401 then INVALID_KEY
    else if status == 429 then RATE_LIMITED
    else if Truthy(serverMessage) then serverMessage.value
    else API_ERROR + NatToDecimal(status)
  }

  /** Without a server message the fallback error names the status: the
    * digits after "API error: " read back as the status code. */
  lemma ErrorMessageNamesStatus(status: nat, serverMessage: Option<JsString>)
    requires status != 401 && status != 429 && !Truthy(serverMessage)
    ensures var m := ErrorMessage(status, serverMessage);
      |API_ERROR| < |m| && m[..|API_ERROR|] == API_ERROR
      && AllDigits(m[|API_ERROR|..]) && DecimalValue(m[|API_ERROR|..]) == status
  {
    var m := ErrorMessage(status, serverMessage);
    assert m[|API_ERROR|..] == NatToDecimal(status);
    DecimalRoundTrip(status);
  }

  /** The outcome of the call: a reply exactly for an ok status, and a reply
    * is never empty; every failure carries a non-empty message unless the
    * exception itself had none. */
  function CallOutcome(e: Exchange): (r: CallResult)
    ensures e.Rejected? ==> r == Failed(e.message)
    ensures e.Responded? ==> (r.Reply? <==> IsOk(e.status))
    ensures e.Responded? && IsOk(e.status) ==> r == Reply(ReplyText(e.firstText))
    ensures e.Responded? && !IsOk(e.status) ==> r == Failed(ErrorMessage(e.status, e.errorMessage))
    ensures r.Reply? ==> r.text != []
    ensures e.Responded? && r.Failed? ==> r.message != []
  {
    match e
    case Rejected(message) => Failed(message)
    case Responded(status, errorMessage, firstText) =>
      if IsOk(status) then Reply(ReplyText(firstText)) else Failed(ErrorMessage(status, errorMessage))
  }
}
