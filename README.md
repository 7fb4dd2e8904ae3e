# NeuralChat chat-state core in Dafny

NeuralChat is a single-page chat assistant (`app.js`). This project models the
chat state behind the page and the operations that change it:

- sending a message and receiving the reply or the error;
- building the message window that goes to the completion service;
- classifying the service's answer into a reply text or an error text;
- saving the conversation into the ordered session list, persisting the
  first 30 sessions and showing the first 15 in the history panel;
- starting a new chat, loading a saved one and switching topic;
- regenerating the last reply;
- the pure helpers: `escapeHtml`, `formatTime`, the topic-label lookup and
  `getTopicEmoji`.

How the model is built:

- The page's `state` record is the class `Chat.ChatState`. Its fields are
  `messages`, `chatSessions`, `currentSessionId`, `isTyping`, `currentTopic`
  and `currentTopicLabel`. Two more fields are added:
  - `persisted` is the `nc_sessions` storage slot as the page last wrote it;
  - `pendingText` is the trimmed text held by a `sendMessage` call that is
    waiting for its reply.
- `sendMessage` is split at its one `await`. `BeginSend` runs up to the
  request and returns the request window. `CompleteSend` takes what the
  service produced (an `Api.Exchange` value) and finishes the turn. Any other
  operation may run between the two, as on the page.
- JavaScript strings are sequences of UTF-16 code units (`JsText.JsString`).
  So the 40-character title limit counts code units, as `substring` does.
  `trim` removes the ECMAScript white-space and line-terminator set.
  String constants are written as code-unit sequences, with their text in a
  comment beside them.
- Clock readings (`Date.now()`, the locale time strings), fresh session ids,
  the input box's value and the service's answer are parameters.
- The `||` fallbacks treat an absent value and the empty string alike
  (`Api.Truthy`).
- The page keeps three invariants, and every state-changing method preserves
  them. Storage, once written, holds exactly the first 30 sessions of the
  list (`StorageMirrors`; writes are taken to succeed). A request in flight
  always carries non-empty, trimmed text (`PendingTrimmed`). The topic label
  is the current topic's label from the table (`TopicLabelled`). Id
  uniqueness cannot be assumed of a list read back from storage, so it is
  proved as "unique before implies unique after" (`IdsUnique`).

Behaviour of `app.js` worth knowing:

- Regenerating leaves the transcript with two copies of the question. The
  last assistant message is removed, and then the last user message's text
  is sent again, which appends a second user message with the same text and
  a new time (`Chat.RegenerateRepeatsQuestion`, `Chat.RegenerateCounts`).
- Regenerating goes ahead when there is a user message but no assistant
  message. It then removes nothing and re-sends. When the re-sent text is
  blank, the send guard drops it, and the transcript is only pruned.
- A session's title is taken from the text of the message just sent, not
  from the conversation's first message. Every reply re-titles the session.
- Saving an existing id replaces the entry where it stands. The entry is not
  moved to the front, so the list is not ordered by last update.

## Model

| member | source | states |
|---|---|---|
| JsText.Trim | app.js:282 | the result is the input without its leading and trailing JavaScript white space, and neither end of a non-empty result is white space |
| JsText.TrimEmptyIffBlank | app.js:282-283 | the trimmed text is empty exactly when the input is all white space, which is when the send guard drops the send |
| JsText.TrimIdempotent | app.js:282 | trimming an already trimmed text changes nothing, so a stored user message re-sends unchanged |
| JsText.DecimalRoundTrip | app.js:589-592 | the decimal digits printed for a count read back as that count |
| HtmlEscape.EscapeHtml | app.js:576-583 | the five chained global replacements, `&` first; what the output means is stated by `EscapeHtmlIsPerUnit`, `EscapeHtmlIsEscaped` and `UnescapeEscapeHtml` |
| HtmlEscape.EscapeHtmlIsPerUnit | app.js:576-583 | the chain of five global replacements, `&` first, equals escaping each code unit on its own |
| HtmlEscape.EscapeHtmlIsEscaped | app.js:576-583 | the output holds none of `<`, `>`, `"` and `'`, and every `&` in it starts one of the five entities |
| HtmlEscape.UnescapeEscapeHtml | app.js:576-583 | decoding the five entities in the output gives back the input |
| HtmlEscape.EscapeHtmlPlainText | app.js:576-583 | a text without any of the five special characters is returned unchanged |
| TimeLabels.AgeOf | app.js:585-593 | "just now" exactly below one minute; otherwise minutes below an hour, hours below a day, then days; each count is the floor of the difference over its unit |
| TimeLabels.Label | app.js:589-592 | the three labels of a past bucket and "Just now"; what a label says is stated by `FormatTime` and `FormatTimeCount` |
| TimeLabels.FormatTime | app.js:585-593 | the label is "Just now" exactly when less than a minute has passed; otherwise it starts with a digit and ends with "m ago" below an hour, "h ago" below a day and "d ago" from a day on |
| TimeLabels.FormatTimeCount | app.js:589-592 | everything before the five-unit suffix is decimal digits, without a leading zero, reading back as the whole count of minutes, hours or days |
| Topics.TopicLabel | app.js:245 | a chip topic gets its label from the table, any other plain topic is its own label; never empty for a non-empty topic |
| Topics.TopicEmoji | app.js:258-264 | a chip topic gets its emoji, any other plain topic the robot emoji |
| Topics.KnownTopics | app.js:20-28 | the default topic's label is the initial label, and every table topic has a label different from its key and an emoji |
| Sessions.Title | app.js:493-495 | the title is the text when it has at most 40 code units, else its first 40 followed by "..." (43 in all) |
| Sessions.TitleIdempotent | app.js:493-495 | a title is its own title |
| Sessions.FindIndex | app.js:497 | the first index whose id matches, or -1 exactly when no entry has that id |
| Sessions.Upsert | app.js:497-510 | an existing id is replaced at its index with the length and every other entry unchanged; a new id goes to index 0 in front of the old list |
| Sessions.UpsertKeepsIdsUnique | app.js:497-510 | saving keeps ids unique, and the ids afterwards are the old ids plus the saved one |
| Sessions.UpsertSameIdTwice | app.js:497-510 | saving two sessions under one id leaves the list as saving the second one alone |
| Sessions.Retained | app.js:200 | storage receives the first min(30, n) sessions in list order |
| Sessions.RetainedKeepsIdsUnique | app.js:200 | the persisted prefix of a list with unique ids has unique ids |
| Sessions.HistoryView | app.js:213-228 | the panel shows the first min(15, n) sessions in order, only the first marked active, each title escaped and decoding back to the stored title, each time label the one `formatTime` gives |
| Sessions.UpsertAllFresh | app.js:506-510 | saving sessions with new, distinct ids one after another stacks them newest first in front of the list |
| Sessions.OldestSessionsEvicted | app.js:198-202 | after distinct sessions are saved into an empty list, storage holds the 30 most recent, newest first |
| Sessions.FirstSessionEvicted | app.js:198-202 | after 31 distinct saves, the first session saved is no longer in storage |
| Api.ApiRole | app.js:328 | `bot` becomes `assistant`; every other role is kept |
| Api.Contextual | app.js:333-335 | the newest message's text ends with the user's text; it is exactly that text for the default topic and "[Context: label]" plus a blank line plus the text otherwise |
| Api.WindowLength | app.js:327 | the window keeps min(20, n) messages |
| Api.BuildWindow | app.js:327-340 | the window is the last min(20, n) messages in order, with roles mapped and contents kept, except that the last one carries the contextual text |
| Api.DefaultTopicWindowIsTranscript | app.js:327-340 | for the default topic, when the newest message is the one just sent, the window is the transcript's tail with only roles mapped |
| Api.ReplyText | app.js:367 | the reply is the first content block's text, or "No response received." when it is absent or empty; never empty |
| Api.ErrorMessage | app.js:356-364 | status 401 and 429 get their fixed texts whatever the server said; otherwise the server's message, else "API error: " and the status; never empty |
| Api.ErrorMessageNamesStatus | app.js:363 | the fallback error's digits after "API error: " read back as the status |
| Api.CallOutcome | app.js:356-367 | the call yields a reply exactly for a 2xx status and fails otherwise; a reply is never empty; a thrown exception fails with its own message |
| Chat.SendInput | app.js:282 | the override text is used when it is a non-empty string, the input box otherwise |
| Chat.SendText | app.js:282-283 | the send text is the trimmed `overrideText \|\| input.value`; it is empty, and the send dropped, exactly when that input is all white space |
| Chat.SaveId | app.js:489-491 | the session is filed under the current id when one is set, under a fresh id otherwise |
| Chat.LastIndexOf | app.js:619 | the last index holding the role, or -1; no later message has the role |
| Chat.RemoveLast | app.js:619-620 | exactly the last message of the role is removed, the others keep their order; nothing changes when there is none |
| Chat.RemoveLastKeeps | app.js:620 | every other message survives the removal, one place further left when it stood after the removed one |
| Chat.RemoveLastCount | app.js:619-620 | the removal takes away one message of the role and none of any other role |
| Chat.Regenerated | app.js:615-628 | the transcript a non-blank regenerate leaves: one message longer, or as long when an assistant message was removed, ending with the re-sent user message at the new time; its counts and contents are stated by `RegenerateCounts` and `RegenerateRepeatsQuestion` |
| Chat.RegenerateRepeatsQuestion | app.js:615-628 | after regenerating a stored (trimmed, non-empty) question, it is still in the transcript and a user message with the same text is appended |
| Chat.RegenerateCounts | app.js:612-628 | a regenerate whose re-sent text is not blank adds one user message and removes one assistant message, if there was one |
| Chat.ChatState.constructor | app.js:190-196 | the initial state with the stored list when storage held a readable one, the empty list otherwise; all three invariants hold |
| Chat.ChatState.BeginSend | app.js:280-301 | blank text or a request in flight changes nothing; otherwise one user message with the trimmed text is appended, the state is typing, and the request window is built from the new transcript |
| Chat.ChatState.CompleteSend | app.js:303-319 | typing stops in both outcomes; a reply appends one assistant message and saves the session titled by the sent text; a failure changes no message or session and returns the error to show; storage mirrors the list and ids stay unique |
| Chat.ChatState.SaveCurrentSession | app.js:488-514 | a current id is created when missing, the session is upserted under it, storage holds the capped list, and ids stay unique |
| Chat.ChatState.SaveSessions | app.js:198-202 | storage holds the first 30 sessions; the list itself is not shortened |
| Chat.ChatState.NewChat | app.js:204-206 | the transcript is empty under a fresh id; the sessions and storage are untouched |
| Chat.ChatState.LoadSession | app.js:230-234 | the first session with the id becomes the transcript and the current id; an unknown id changes nothing |
| Chat.ChatState.SetTopic | app.js:243-245 | the topic is set and its label is the table's label or the topic itself |
| Chat.ChatState.Regenerate | app.js:612-628 | nothing happens while typing or without a user message; otherwise the last assistant message is removed and the last user message's text is sent again |

## Left out

- The DOM and the rest of the page are not modelled: message bubbles, the
  typing indicator, error toasts, the sidebar, the context menu, the canvas
  animation and the clipboard helpers. They are browser side effects.
- `fetch` and the request body are not modelled: the model name, the token
  limit, the system prompt and the API-key header. The exchange is the
  abstract value `Api.Exchange`. A failure to reach the service, or a
  successful response whose body is not JSON, is `Rejected` with the
  exception's message.
- `localStorage` and JSON are abstract. The slot read at start-up is an
  `Chat.StoredSessions` value: missing, unreadable or a parsed list.
  A write assigns `persisted`. A slot that parses to something other than a
  list of sessions is not modelled.
- Stored records always carry a `messages` list, so the `|| []` fallback in
  `loadSession` has no case in the model.
- `Date.now()` and `toLocaleTimeString` are parameters: fresh ids, save
  times, `now` and the message time strings.
- `formatBotMessage` is not modelled: it is a chain of regular-expression
  rewrites of the reply text for display, and the stored reply is the raw
  text.
- Array aliasing is not modelled. The page stores the live `messages` array
  in the session, and loading a session makes the two share one array again.
  The model uses values: a saved session holds the transcript as it was at
  that save.
- The API key, the sidebar state, `clearChat`'s confirmation, the
  suggestion and company quick-ask buttons are not modelled. The buttons
  only call `sendMessage` with an override text, which `BeginSend` covers.
- Topics.TopicLabel: the tables are plain object literals, so a topic named
  after an inherited `Object.prototype` key (`constructor`, `toString`,
  `__proto__`) looks up a function or object instead of falling back to
  the topic. The model has no prototype keys; the page only sends chip topics.
- Topics.TopicEmoji: the same inherited `Object.prototype` keys return a
  function or object instead of the robot emoji; not modelled.
- Chat.ChatState.SaveSessions: `localStorage.setItem` can throw (quota,
  private browsing), and the empty `catch` then leaves the slot as it was.
  The model takes every write to succeed, so `StorageMirrors` holds of the
  page only while writes succeed.
- TimeLabels.AgeOf: JavaScript numbers are doubles. The model's integer
  arithmetic matches `Math.floor(diff / unit)` for integer millisecond
  times within `Date`'s range; an invalid date, which prints "NaNd ago",
  is not modelled.
