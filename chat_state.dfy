/**
 * The chat state of the page and the operations that change it: sending a
 * message (split at its one `await` into `BeginSend` and `CompleteSend`),
 * saving the session, starting a new chat, loading a saved one, switching
 * topic and regenerating the last reply. Clock readings, ids, the input box
 * and the service's answer are parameters.
 */
module Chat {
  import opened Wrappers
  import opened JsText
  import opened Sessions
  import opened Api
  import Topics

  /** What the `nc_sessions` slot held at start-up: nothing (or the empty
    * string), something `JSON.parse` rejects, or a parsed list. */
  datatype StoredSessions = Missing | Unreadable | Parsed(sessions: seq<Session>)

  /** `state.currentSessionId` is truthy: present and not the empty string. */
  predicate HasSessionId(id: Option<JsString>)
  {
    id.Some? && id.value != []
  }

  /** `overrideText || input.value`: the override when it is a non-empty
    * string, the input box otherwise. */
  function SendInput(overrideText: Option<JsString>, inputValue: JsString): (raw: JsString)
    ensures Truthy(overrideText) ==> raw == overrideText.value
    ensures !Truthy(overrideText) ==> raw == inputValue
  {
    if Truthy(overrideText) then overrideText.value else inputValue
  }

  /** The text a send works with: its raw input, trimmed. It is empty, and
    * the send dropped, exactly when the raw input is all white space. */
  function SendText(overrideText: Option<JsString>, inputValue: JsString): (text: JsString)
    ensures text == Trim(SendInput(overrideText, inputValue))
    ensures text == [] <==> IsBlank(SendInput(overrideText, inputValue))
    ensures Trim(text) == text
  {
    TrimIdempotent(SendInput(overrideText, inputValue));
    TrimEmptyIffBlank(SendInput(overrideText, inputValue));
    Trim(SendInput(overrideText, inputValue))
  }

  /** The id `saveCurrentSession` files under: the current one when set,
    * otherwise the fresh one it creates. */
  function SaveId(current: Option<JsString>, freshId: JsString): (id: JsString)
    ensures HasSessionId(current) ==> id == current.value
    ensures !HasSessionId(current) ==> id == freshId
  {
    if HasSessionId(current) then current.value else freshId
  }

  /** `ms.findLastIndex(m => m.role === role)`: the last index holding a
    * message of that role, or -1 when there is none. */
  function LastIndexOf(ms: seq<Message>, role: Role): (k: int)
    ensures -1 <= k < |ms|
    ensures k >= 0 ==> ms[k].role == role
    ensures forall j :: k < j < |ms| ==> ms[j].role != role
  {
    if ms == [] then -1
    else if ms[|ms| - 1].role == role then |ms| - 1
    else LastIndexOf(ms[..|ms| - 1], role)
  }

  /** The transcript after `splice(lastIndex, 1)` when a message of `role`
    * exists: exactly that message is gone and the others keep their order. */
  function RemoveLast(ms: seq<Message>, role: Role): (r: seq<Message>)
    ensures var k := LastIndexOf(ms, role);
      && (k < 0 ==> r == ms)
      && (k >= 0 ==> |r| == |ms| - 1 && r[..k] == ms[..k] && r[k..] == ms[k + 1..]
                     && multiset(r) + multiset{ms[k]} == multiset(ms))
  {
    var k := LastIndexOf(ms, role);
    if k < 0 then ms
    else
      assert ms == ms[..k] + [ms[k]] + ms[k + 1..];
      ms[..k] + ms[k + 1..]
  }

  /** Every other message survives `RemoveLast`, one place further left when
    * it stood after the removed one. */
  lemma RemoveLastKeeps(ms: seq<Message>, role: Role, i: int)
    requires LastIndexOf(ms, role) >= 0
    requires 0 <= i < |ms| && i != LastIndexOf(ms, role)
    ensures var k := LastIndexOf(ms, role);
      RemoveLast(ms, role)[if i < k then i else i - 1] == ms[i]
  {
    var k := LastIndexOf(ms, role);
    var r := RemoveLast(ms, role);
    if i < k {
      assert r[..k][i] == ms[..k][i];
    } else {
      assert r[k..][i - 1 - k] == ms[k + 1..][i - 1 - k];
    }
  }

  /** The number of messages of a role. */
  function CountRole(ms: seq<Message>, role: Role): nat
  {
    if ms == [] then 0 else (if ms[0].role == role then 1 else 0) + CountRole(ms[1..], role)
  }

  lemma {:induction false} CountRoleAppend(a: seq<Message>, b: seq<Message>, role: Role)
    ensures CountRole(a + b, role) == CountRole(a, role) + CountRole(b, role)
  {
    if a == [] {
      assert a + b == b;
    } else {
      assert (a + b)[1..] == a[1..] + b;
      CountRoleAppend(a[1..], b, role);
    }
  }

  lemma CountRoleUnit(m: Message, role: Role)
    ensures CountRole([m], role) == if m.role == role then 1 else 0
  {
    assert [m][1..] == [];
  }

  /** Removing the last message of a role takes away exactly one message of
    * that role and none of any other role. */
  lemma RemoveLastCount(ms: seq<Message>, role: Role, other: Role)
    requires LastIndexOf(ms, role) >= 0 && other != role
    ensures CountRole(RemoveLast(ms, role), role) == CountRole(ms, role) - 1
    ensures CountRole(RemoveLast(ms, role), other) == CountRole(ms, other)
  {
    var k := LastIndexOf(ms, role);
    assert ms == ms[..k] + ([ms[k]] + ms[k + 1..]);
    CountRoleAppend(ms[..k], [ms[k]] + ms[k + 1..], role);
    CountRoleAppend([ms[k]], ms[k + 1..], role);
    CountRoleAppend(ms[..k], ms[k + 1..], role);
    CountRoleAppend(ms[..k], [ms[k]] + ms[k + 1..], other);
    CountRoleAppend([ms[k]], ms[k + 1..], other);
    CountRoleAppend(ms[..k], ms[k + 1..], other);
  }

  /** The text `regenMessage` re-sends: the last user message's content,
    * through `sendMessage`'s fallback and trim. */
  function RegenText(ms: seq<Message>, inputValue: JsString): JsString
    requires LastIndexOf(ms, User) >= 0
  {
    SendText(Some(ms[LastIndexOf(ms, User)].content), inputValue)
  }

  /** The transcript `regenMessage` leaves behind when the resend goes
    * through (its text is not blank): the pruned transcript plus the
    * re-sent user message. */
  function Regenerated(ms: seq<Message>, inputValue: JsString, time: JsString): (r: seq<Message>)
    requires LastIndexOf(ms, User) >= 0 && RegenText(ms, inputValue) != []
    ensures |r| == |ms| + 1 - (if LastIndexOf(ms, Assistant) >= 0 then 1 else 0)
    ensures r[|r| - 1].role == User && r[|r| - 1].time == time
  {
    RemoveLast(ms, Assistant) + [Message(User, RegenText(ms, inputValue), time)]
  }

  /** For a stored user message (already trimmed) the question appears
    * twice after regenerating: it survives the pruning, and an identical
    * copy is appended. */
  lemma RegenerateRepeatsQuestion(ms: seq<Message>, inputValue: JsString, time: JsString)
    requires LastIndexOf(ms, User) >= 0 && RegenText(ms, inputValue) != []
    requires Trim(ms[LastIndexOf(ms, User)].content) == ms[LastIndexOf(ms, User)].content != []
    ensures var u := LastIndexOf(ms, User);
      && Regenerated(ms, inputValue, time) == RemoveLast(ms, Assistant) + [Message(User, ms[u].content, time)]
      && ms[u] in RemoveLast(ms, Assistant)
  {
    var u, a := LastIndexOf(ms, User), LastIndexOf(ms, Assistant);
    assert RegenText(ms, inputValue) == ms[u].content by {
      assert SendInput(Some(ms[u].content), inputValue) == ms[u].content;
    }
    if a >= 0 {
      RemoveLastKeeps(ms, Assistant, u);
    }
  }

  /** A regenerate whose re-send goes through gains one user message and
    * loses one assistant message, if there was one. */
  lemma RegenerateCounts(ms: seq<Message>, inputValue: JsString, time: JsString)
    requires LastIndexOf(ms, User) >= 0 && RegenText(ms, inputValue) != []
    ensures var r := Regenerated(ms, inputValue, time);
      && CountRole(r, User) == CountRole(ms, User) + 1
      && CountRole(r, Assistant) == CountRole(ms, Assistant) - (if LastIndexOf(ms, Assistant) >= 0 then 1 else 0)
  {
    var pruned := RemoveLast(ms, Assistant);
    var m := Message(User, RegenText(ms, inputValue), time);
    assert Regenerated(ms, inputValue, time) == pruned + [m];
    CountRoleAppend(pruned, [m], User);
    CountRoleAppend(pruned, [m], Assistant);
    CountRoleUnit(m, User);
    CountRoleUnit(m, Assistant);
    if LastIndexOf(ms, Assistant) >= 0 {
      RemoveLastCount(ms, Assistant, User);
    }
  }

  class ChatState {
    var messages: seq<Message>
    var chatSessions: seq<Session>
    var currentSessionId: Option<JsString>
    var isTyping: bool
    var currentTopic: JsString
    var currentTopicLabel: JsString
    /** The `nc_sessions` slot as this page last wrote it; `None` before the first write. */
    var persisted: Option<seq<Session>>
    /** The trimmed text of the send whose reply is awaited: the `text` the
      * suspended `sendMessage` call holds. */
    var pendingText: JsString

    /** The invariants of the page state. */
    ghost predicate Valid()
      reads this
    {
      StorageMirrors() && PendingTrimmed() && TopicLabelled()
    }

    /** Storage, once written, holds the capped list. */
    ghost predicate StorageMirrors()
      reads this`persisted, this`chatSessions
    {
      persisted.Some? ==> persisted.value == Retained(chatSessions)
    }

    /** While a request is in flight, the text it carries is non-empty and trimmed. */
    ghost predicate PendingTrimmed()
      reads this`isTyping, this`pendingText
    {
      isTyping ==> pendingText != [] && Trim(pendingText) == pendingText
    }

    /** The label shown and sent as request context is the current topic's. */
    ghost predicate TopicLabelled()
      reads this`currentTopic, this`currentTopicLabel
    {
      currentTopicLabel == Topics.TopicLabel(currentTopic)
    }

    /** No two sessions share an id, in memory or in storage. */
    ghost predicate IdsUnique()
      reads this
    {
      UniqueIds(chatSessions) && (persisted.Some? ==> UniqueIds(persisted.value))
    }

    /** The initial `state` followed by `loadSessions()`: an unreadable slot
      * leaves the list empty. */
    constructor (stored: StoredSessions)
      ensures Valid()
      ensures messages == [] && currentSessionId == None && !isTyping
      ensures currentTopic == Topics.DEFAULT_TOPIC && currentTopicLabel == Topics.ML_MODELS_LABEL
      ensures chatSessions == (if stored.Parsed? then stored.sessions else [])
      ensures persisted == None && pendingText == []
    {
      messages := [];
      chatSessions := if stored.Parsed? then stored.sessions else [];
      currentSessionId := None;
      isTyping := false;
      currentTopic := Topics.DEFAULT_TOPIC;
      currentTopicLabel := Topics.ML_MODELS_LABEL;
      persisted := None;
      pendingText := [];
    }

    /** `sendMessage` up to its `await`. Blank text, or a request already in
      * flight, changes nothing. Otherwise the user message with the trimmed
      * text is appended, the state is typing, and the request window built
      * from the new transcript is returned. */
    method BeginSend(overrideText: Option<JsString>, inputValue: JsString, time: JsString)
      returns (request: Option<seq<ApiMessage>>)
      requires PendingTrimmed()
      modifies this`messages, this`isTyping, this`pendingText
      ensures PendingTrimmed()
      ensures SendText(overrideText, inputValue) == [] || old(isTyping) ==>
        && request.None? && messages == old(messages)
        && isTyping == old(isTyping) && pendingText == old(pendingText)
      ensures SendText(overrideText, inputValue) != [] && !old(isTyping) ==>
        var text := SendText(overrideText, inputValue);
        && messages == old(messages) + [Message(User, text, time)]
        && isTyping && pendingText == text
        && request == Some(BuildWindow(messages, currentTopic, currentTopicLabel, text))
    {
      var text := SendText(overrideText, inputValue);
      if text == [] || isTyping {
        return None;
      }
      messages, isTyping, pendingText := messages + [Message(User, text, time)], true, text;
      request := Some(BuildWindow(messages, currentTopic, currentTopicLabel, text));
    }

    /** `sendMessage` after its `await`. The state stops typing. A reply is
      * appended as an assistant message and the session is saved under the
      * text that was sent; a failure leaves transcript and sessions as they
      * are and returns the message to show. */
    method CompleteSend(exchange: Exchange, botTime: JsString, now: int, freshId: JsString)
      returns (shownError: Option<JsString>)
      requires StorageMirrors() && TopicLabelled() && isTyping
      modifies this`isTyping, this`messages, this`currentSessionId, this`chatSessions, this`persisted
      ensures Valid() && !isTyping
      ensures old(IdsUnique()) ==> IdsUnique()
      ensures match CallOutcome(exchange)
        case Reply(text) =>
          && shownError == None
          && messages == old(messages) + [Message(Assistant, text, botTime)]
          && currentSessionId == Some(SaveId(old(currentSessionId), freshId))
          && chatSessions == Upsert(old(chatSessions),
               Session(SaveId(old(currentSessionId), freshId), Title(old(pendingText)), now, messages, currentTopic))
          && persisted == Some(Retained(chatSessions))
        case Failed(message) =>
          && shownError == Some(message)
          && messages == old(messages) && chatSessions == old(chatSessions)
          && currentSessionId == old(currentSessionId) && persisted == old(persisted)
    {
      var outcome := CallOutcome(exchange);
      isTyping := false;
      match outcome {
        case Reply(text) =>
          messages := messages + [Message(Assistant, text, botTime)];
          SaveCurrentSession(pendingText, now, freshId);
          shownError := None;
        case Failed(message) =>
          shownError := Some(message);
      }
    }

    /** `saveCurrentSession(firstMessage)`: make sure there is a current id,
      * upsert the session built from the transcript under it, and persist
      * the capped list. */
    method SaveCurrentSession(firstMessage: JsString, now: int, freshId: JsString)
      requires StorageMirrors()
      modifies this`currentSessionId, this`chatSessions, this`persisted
      ensures StorageMirrors()
      ensures old(IdsUnique()) ==> IdsUnique()
      ensures currentSessionId == Some(SaveId(old(currentSessionId), freshId))
      ensures chatSessions == Upsert(old(chatSessions),
        Session(SaveId(old(currentSessionId), freshId), Title(firstMessage), now, messages, currentTopic))
      ensures persisted == Some(Retained(chatSessions))
    {
      if !HasSessionId(currentSessionId) {
        currentSessionId := Some(freshId);
      }
      var id := currentSessionId.value;
      var session := Session(id, Title(firstMessage), now, messages, currentTopic);
      if UniqueIds(chatSessions) {
        UpsertKeepsIdsUnique(chatSessions, session);
        RetainedKeepsIdsUnique(Upsert(chatSessions, session));
      }
      chatSessions := Upsert(chatSessions, session);
      SaveSessions();
    }

    /** `saveSessions()`: storage receives the first 30 sessions in list order;
      * the list itself is not shortened. */
    method SaveSessions()
      modifies this`persisted
      ensures persisted == Some(Retained(chatSessions))
    {
      persisted := Some(Retained(chatSessions));
    }

    /** `newChat()`: an empty transcript under a fresh id; the saved sessions
      * are left alone. */
    method NewChat(freshId: JsString)
      requires Valid()
      modifies this`messages, this`currentSessionId
      ensures Valid()
      ensures messages == [] && currentSessionId == Some(freshId)
    {
      messages := [];
      currentSessionId := Some(freshId);
    }

    /** `loadSession(id)`: the first session with that id becomes the current
      * transcript; an unknown id changes nothing. */
    method LoadSession(id: JsString)
      requires Valid()
      modifies this`messages, this`currentSessionId
      ensures Valid()
      ensures var k := FindIndex(chatSessions, id);
        if k < 0 then messages == old(messages) && currentSessionId == old(currentSessionId)
        else messages == chatSessions[k].messages && currentSessionId == Some(id)
    {
      var k := FindIndex(chatSessions, id);
      if k < 0 {
        return;
      }
      messages := chatSessions[k].messages;
      currentSessionId := Some(id);
    }

    /** The state part of `setTopic(topic)`. */
    method SetTopic(topic: JsString)
      requires Valid()
      modifies this`currentTopic, this`currentTopicLabel
      ensures Valid()
      ensures currentTopic == topic && currentTopicLabel == Topics.TopicLabel(topic)
    {
      currentTopic := topic;
      currentTopicLabel := Topics.TopicLabel(topic);
    }

    /** `regenMessage`: nothing while a request is in flight or when there is
      * no user message. Otherwise the last assistant message (wherever it
      * sits) is removed and the last user message's text is sent again,
      * which appends a second copy of that user message. */
    method Regenerate(inputValue: JsString, time: JsString) returns (request: Option<seq<ApiMessage>>)
      requires PendingTrimmed()
      modifies this`messages, this`isTyping, this`pendingText
      ensures PendingTrimmed()
      ensures var u := LastIndexOf(old(messages), User);
        if old(isTyping) || u < 0 then
          && request.None? && messages == old(messages)
          && isTyping == old(isTyping) && pendingText == old(pendingText)
        else
          var pruned := RemoveLast(old(messages), Assistant);
          var text := SendText(Some(old(messages)[u].content), inputValue);
          if text == [] then
            request.None? && messages == pruned && !isTyping && pendingText == old(pendingText)
          else
            && messages == Regenerated(old(messages), inputValue, time)
            && isTyping && pendingText == text
            && request == Some(BuildWindow(messages, currentTopic, currentTopicLabel, text))
    {
      if isTyping {
        return None;
      }
      var u := LastIndexOf(messages, User);
      if u < 0 {
        return None;
      }
      var content := messages[u].content;
      messages := RemoveLast(messages, Assistant);
      request := BeginSend(Some(content), inputValue, time);
    }
  }
}
