/** The chat page: the session list, the open conversation and the
    reconciliation of locally added messages with the backend's replies. */
module Chat {
  import opened Base
  import opened Text
  import opened Js
  import opened Http
  import opened Api

  function CountId(ss: seq<ChatSession>, id: string): nat
    decreases |ss|
  {
    if ss == [] then 0 else (if ss[0].id == id then 1 else 0) + CountId(ss[1..], id)
  }

  // ---------------------------------------------------------------- messages

  const WelcomeText := "Hello! I'm your legal mentor. How can I assist you with your legal matters today?"

  /** The mentor's greeting that opens a new session. */
  function Welcome(localId: string, now: string): ChatMessage {
    ChatMessage(localId, WelcomeText, "mentor", now, false, Some("read"), None, None)
  }

  /** The message added locally when the user submits `text`. */
  function UserMessage(localId: string, text: string, now: string): ChatMessage {
    ChatMessage(localId, text, "user", now, true, Some("sent"), None, None)
  }

  /** On a reply: the pending message is marked read and takes the reply's id,
      then the reply is appended. */
  function ConfirmReply(ms: seq<ChatMessage>, localId: string, reply: ChatMessage): (r: seq<ChatMessage>)
    ensures |r| == |ms| + 1 && r[|ms|] == reply
  {
    MapIf(ms, (m: ChatMessage) => m.id == localId, (m: ChatMessage) => m.(status := Some("read"), id := reply.id)) + [reply]
  }

  /** On a failed send: the pending message goes back to "sent". */
  function Revert(ms: seq<ChatMessage>, localId: string): (r: seq<ChatMessage>)
    ensures |r| == |ms|
  {
    MapIf(ms, (m: ChatMessage) => m.id == localId, (m: ChatMessage) => m.(status := Some("sent")))
  }

  predicate FreshId(ms: seq<ChatMessage>, id: string) {
    forall i | 0 <= i < |ms| :: ms[i].id != id
  }

  /** With a fresh local id, a reply leaves every earlier message alone, marks
      the pending one read under the reply's id, and appends the reply. */
  lemma ConfirmReplyEffect(ms: seq<ChatMessage>, u: ChatMessage, reply: ChatMessage)
    requires FreshId(ms, u.id)
    ensures ConfirmReply(ms + [u], u.id, reply) == ms + [u.(status := Some("read"), id := reply.id), reply]
  {
    var r := ConfirmReply(ms + [u], u.id, reply);
    assert forall i | 0 <= i < |ms| :: (ms + [u])[i] == ms[i];
    assert (ms + [u])[|ms|] == u;
  }

  /** Messages whose ids are not all distinct: what the page's debug check reports. */
  predicate HasDuplicateIds(ms: seq<ChatMessage>) {
    exists i, j | 0 <= i < j < |ms| :: ms[i].id == ms[j].id
  }

  /** As written, every successful reply leaves the pending message and the
      reply under the same id, so the duplicate-id check always fires. */
  lemma ReplyDuplicatesId(ms: seq<ChatMessage>, u: ChatMessage, reply: ChatMessage)
    requires FreshId(ms, u.id)
    ensures HasDuplicateIds(ConfirmReply(ms + [u], u.id, reply))
  {
    ConfirmReplyEffect(ms, u, reply);
    var r := ConfirmReply(ms + [u], u.id, reply);
    assert r[|ms|].id == r[|ms| + 1].id;
  }

  /** Reverting changes only the pending message, and only its status. */
  lemma RevertEffect(ms: seq<ChatMessage>, localId: string)
    ensures forall i | 0 <= i < |ms| && ms[i].id != localId :: Revert(ms, localId)[i] == ms[i]
    ensures forall i | 0 <= i < |ms| && ms[i].id == localId ::
      Revert(ms, localId)[i] == ms[i].(status := Some("sent"))
  {
  }

  /** Right after submitting, the pending message is still "sent", so a failed
      send leaves the list exactly as the submission left it. */
  lemma RevertAfterSubmit(ms: seq<ChatMessage>, u: ChatMessage)
    requires FreshId(ms, u.id) && u.status == Some("sent")
    ensures Revert(ms + [u], u.id) == ms + [u]
  {
    assert forall i | 0 <= i < |ms| :: (ms + [u])[i] == ms[i];
    assert (ms + [u])[|ms|] == u;
  }

  /** `toggleMessageImportant`'s update: the message with that id replaced. */
  function ReplaceMessage(ms: seq<ChatMessage>, id: string, m: ChatMessage): (r: seq<ChatMessage>)
    ensures |r| == |ms|
    ensures forall i | 0 <= i < |ms| :: r[i] == if ms[i].id == id then m else ms[i]
  {
    MapIf(ms, (x: ChatMessage) => x.id == id, (x: ChatMessage) => m)
  }

  /** `messages.find(m => m.id === id)`: the first message with that id, which
      matters once a reply has left two messages under one id. */
  function FindMessage(ms: seq<ChatMessage>, id: string): (r: Option<ChatMessage>)
    ensures r.Some? ==> r.value in ms && r.value.id == id
    ensures r.None? ==> FreshId(ms, id)
    decreases |ms|
  {
    if ms == [] then None else if ms[0].id == id then Some(ms[0]) else FindMessage(ms[1..], id)
  }
  /** The message found is the first one with that id: every message before it
      has another id. */
  lemma {:induction false} FindMessageFirst(ms: seq<ChatMessage>, id: string)
    ensures FindMessage(ms, id).Some? ==>
      exists k | 0 <= k < |ms| :: ms[k] == FindMessage(ms, id).value && forall j | 0 <= j < k :: ms[j].id != id
    decreases |ms|
  {
    if ms != [] && ms[0].id != id && FindMessage(ms, id).Some? {
      FindMessageFirst(ms[1..], id);
      var k :| 0 <= k < |ms[1..]| && ms[1..][k] == FindMessage(ms, id).value
        && forall j | 0 <= j < k :: ms[1..][j].id != id;
      assert ms[k + 1] == FindMessage(ms, id).value;
      assert forall j | 0 <= j < k + 1 :: ms[j].id != id by {
        forall j | 0 <= j < k + 1 ensures ms[j].id != id {
          if j > 0 { assert ms[j] == ms[1..][j - 1]; }
        }
      }
    }
  }


  // ---------------------------------------------------------------- sessions

  /** After a reply: the current session's preview and timestamp follow the reply. */
  function UpdatePreview(ss: seq<ChatSession>, currentId: string, text: string, timestamp: string): (r: seq<ChatSession>)
    ensures |r| == |ss|
  {
    MapIf(ss, (s: ChatSession) => s.id == currentId, (s: ChatSession) => s.(lastMessage := text, timestamp := timestamp))
  }

  /** Only the current session changes, and only in its preview and timestamp. */
  lemma UpdatePreviewEffect(ss: seq<ChatSession>, currentId: string, text: string, timestamp: string)
    ensures forall i | 0 <= i < |ss| ::
      var r := UpdatePreview(ss, currentId, text, timestamp)[i];
      r.id == ss[i].id && r.title == ss[i].title && r.isPinned == ss[i].isPinned
      && r.isArchived == ss[i].isArchived && r.category == ss[i].category
      && (ss[i].id == currentId ==> r.lastMessage == text && r.timestamp == timestamp)
      && (ss[i].id != currentId ==> r == ss[i])
  {
  }

  /** `togglePinSession`'s update: the session with that id replaced. */
  function ReplaceSession(ss: seq<ChatSession>, id: string, s: ChatSession): (r: seq<ChatSession>)
    ensures |r| == |ss|
    ensures forall i | 0 <= i < |ss| :: r[i] == if ss[i].id == id then s else ss[i]
  {
    MapIf(ss, (x: ChatSession) => x.id == id, (x: ChatSession) => s)
  }

  /** `sessions.find(s => s.id === id)`: the first session with that id. */
  function FindSession(ss: seq<ChatSession>, id: string): (r: Option<ChatSession>)
    ensures r.Some? ==> r.value in ss && r.value.id == id
    ensures r.None? ==> forall i | 0 <= i < |ss| :: ss[i].id != id
    decreases |ss|
  {
    if ss == [] then None else if ss[0].id == id then Some(ss[0]) else FindSession(ss[1..], id)
  }
  /** The session found is the first one with that id. */
  lemma {:induction false} FindSessionFirst(ss: seq<ChatSession>, id: string)
    ensures FindSession(ss, id).Some? ==>
      exists k | 0 <= k < |ss| :: ss[k] == FindSession(ss, id).value && forall j | 0 <= j < k :: ss[j].id != id
    decreases |ss|
  {
    if ss != [] && ss[0].id != id && FindSession(ss, id).Some? {
      FindSessionFirst(ss[1..], id);
      var k :| 0 <= k < |ss[1..]| && ss[1..][k] == FindSession(ss, id).value
        && forall j | 0 <= j < k :: ss[1..][j].id != id;
      assert ss[k + 1] == FindSession(ss, id).value;
      assert forall j | 0 <= j < k + 1 :: ss[j].id != id by {
        forall j | 0 <= j < k + 1 ensures ss[j].id != id {
          if j > 0 { assert ss[j] == ss[1..][j - 1]; }
        }
      }
    }
  }


  /** `sessions.filter(s => s.id !== id)` */
  function RemoveSession(ss: seq<ChatSession>, id: string): seq<ChatSession> {
    Filter(ss, (s: ChatSession) => s.id != id)
  }

  /** Deleting removes exactly the sessions with that id, keeps the rest in
      order, and shortens the list by their number. */
  lemma {:induction false} RemoveSessionEffect(ss: seq<ChatSession>, id: string)
    ensures forall s :: s in RemoveSession(ss, id) <==> s in ss && s.id != id
    ensures |RemoveSession(ss, id)| == |ss| - CountId(ss, id)
    decreases |ss|
  {
    if ss != [] {
      RemoveSessionEffect(ss[1..], id);
    }
  }

  /** The search: title or preview contains the term, ignoring ASCII case. */
  predicate Matches(s: ChatSession, term: string) {
    Contains(ToLower(s.title), ToLower(term)) || Contains(ToLower(s.lastMessage), ToLower(term))
  }

  /** `filtered`: the matching sessions, in list order. */
  function Filtered(ss: seq<ChatSession>, term: string): (r: seq<ChatSession>)
    ensures forall s :: s in r <==> s in ss && Matches(s, term)
  {
    Filter(ss, (s: ChatSession) => Matches(s, term))
  }

  lemma ToLowerIdempotent(s: string)
    ensures ToLower(ToLower(s)) == ToLower(s)
  {
  }

  /** The search ignores the case of the term, and an empty term shows every session. */
  lemma FilteredCaseAndEmpty(ss: seq<ChatSession>, term: string)
    ensures Filtered(ss, term) == Filtered(ss, ToLower(term))
    ensures Filtered(ss, "") == ss
  {
    ToLowerIdempotent(term);
    FilterSame(ss, (s: ChatSession) => Matches(s, term), (s: ChatSession) => Matches(s, ToLower(term)));
    forall i | 0 <= i < |ss| ensures Matches(ss[i], "") {
      assert StartsWith(ToLower(ss[i].title), "");
    }
    FilterAll(ss, s => Matches(s, ""));
  }

  /** Filtering a list made of two parts filters each part in turn. */
  lemma FilteredAppend(a: seq<ChatSession>, b: seq<ChatSession>, term: string)
    ensures Filtered(a + b, term) == Filtered(a, term) + Filtered(b, term)
  {
    FilterAppend(a, b, s => Matches(s, term));
  }

  // ---------------------------------------------------------------- the page

  class ChatPage {
    var sessions: seq<ChatSession>
    var currentSessionId: Option<string>
    var messages: seq<ChatMessage>
    var input: string
    var searchTerm: string
    var isTyping: bool
    var sidebarOpen: bool
    var selectedMessageId: Option<string>
    var showMessageMenu: bool

    constructor()
      ensures sessions == [] && currentSessionId == None && messages == [] && input == ""
      ensures searchTerm == "" && !isTyping && !sidebarOpen && selectedMessageId == None && !showMessageMenu
    {
      sessions := [];
      currentSessionId := None;
      messages := [];
      input := "";
      searchTerm := "";
      isTyping := false;
      sidebarOpen := false;
      selectedMessageId := None;
      showMessageMenu := false;
    }

    /** `createSession`: `created` is the backend's answer, `localId` and `now`
        the welcome message's generated id and time. A failure changes nothing. */
    method CreateSession(created: Result<BackendSession, Failure>, localId: string, now: string)
      modifies this
      ensures created.Err? ==> (sessions == old(sessions) && currentSessionId == old(currentSessionId)
        && messages == old(messages) && sidebarOpen == old(sidebarOpen))
      ensures created.Ok? ==> (
        var s := CreatedSession(created.value);
        sessions == [s] + old(sessions) && currentSessionId == Some(s.id)
        && messages == [Welcome(localId, now)] && !sidebarOpen)
      ensures input == old(input) && searchTerm == old(searchTerm) && isTyping == old(isTyping)
      ensures selectedMessageId == old(selectedMessageId) && showMessageMenu == old(showMessageMenu)
    {
      if created.Ok? {
        var s := CreatedSession(created.value);
        sessions := [s] + sessions;
        currentSessionId := Some(s.id);
        messages := [];
        sidebarOpen := false;
        messages := [Welcome(localId, now)];
      }
    }

    /** `handleSubmit`: nothing happens for blank input or when no session is
        selected. Otherwise the message is appended as "sent", the input is
        cleared, and the reply (`reply`) confirms it or the failure reverts it.
        `sent` is the body posted to the send endpoint. */
    method HandleSubmit(localId: string, now: string, reply: Result<BackendMessage, Failure>)
      returns (sent: Option<JsValue>)
      modifies this
      ensures Trim(old(input)) == "" || !(old(currentSessionId).Some? && old(currentSessionId).value != "") ==> (
        sent == None && messages == old(messages) && sessions == old(sessions) && input == old(input)
        && isTyping == old(isTyping))
      ensures Trim(old(input)) != "" && old(currentSessionId).Some? && old(currentSessionId).value != "" ==> (
        var u := UserMessage(localId, old(input), now);
        var cid := old(currentSessionId).value;
        sent == Some(SendMessageBody(cid, old(input))) && input == "" && !isTyping
        && (reply.Ok? ==>
              messages == ConfirmReply(old(messages) + [u], localId, ToChatMessage(reply.value))
              && sessions == UpdatePreview(old(sessions), cid, reply.value.text, reply.value.timestamp))
        && (reply.Err? ==> messages == Revert(old(messages) + [u], localId) && sessions == old(sessions)))
      ensures currentSessionId == old(currentSessionId) && searchTerm == old(searchTerm)
      ensures sidebarOpen == old(sidebarOpen) && selectedMessageId == old(selectedMessageId)
      ensures showMessageMenu == old(showMessageMenu)
    {
      if Trim(input) == "" || !(currentSessionId.Some? && currentSessionId.value != "") {
        return None;
      }
      var cid := currentSessionId.value;
      var userMsg := UserMessage(localId, input, now);
      messages := messages + [userMsg];
      input := "";
      isTyping := true;
      sent := Some(SendMessageBody(cid, userMsg.text));
      Settle(cid, userMsg.id, reply);
    }

    /** The `try`/`catch` part of `handleSubmit`, once the pending message
        `pendingId` is in place: a reply confirms it and updates the preview of
        session `cid`; a failure reverts it. Typing stops either way. */
    method Settle(cid: string, pendingId: string, reply: Result<BackendMessage, Failure>)
      modifies this
      ensures reply.Ok? ==> (messages == ConfirmReply(old(messages), pendingId, ToChatMessage(reply.value))
        && sessions == UpdatePreview(old(sessions), cid, reply.value.text, reply.value.timestamp))
      ensures reply.Err? ==> messages == Revert(old(messages), pendingId) && sessions == old(sessions)
      ensures !isTyping && input == old(input) && currentSessionId == old(currentSessionId)
      ensures searchTerm == old(searchTerm) && sidebarOpen == old(sidebarOpen)
      ensures selectedMessageId == old(selectedMessageId) && showMessageMenu == old(showMessageMenu)
    {
      if reply.Ok? {
        var mentorReply := ToChatMessage(reply.value);
        messages := ConfirmReply(messages, pendingId, mentorReply);
        sessions := UpdatePreview(sessions, cid, mentorReply.text, mentorReply.timestamp);
      } else {
        messages := Revert(messages, pendingId);
      }
      isTyping := false;
    }

    /** `toggleMessageImportant`: the update asks for the opposite of the
        current flag (an unset flag counts as false) and the answer replaces
        the message. `query` is the query string sent, if any; by
        `MessageQueryFlagOnly` it is the single `is_important` pair. The menu
        closes in every case. */
    method ToggleMessageImportant(messageId: string, updated: Result<BackendMessage, Failure>)
      returns (query: Option<seq<(string, string)>>)
      modifies this
      ensures var found := FindMessage(old(messages), messageId);
        (found.None? ==> query == None && messages == old(messages))
        && (found.Some? ==>
              query == Some(Present(MessageParamNames, MessageParamValues(Some(found.value.isImportant != Some(true)), None)))
              && messages == (if updated.Ok? then ReplaceMessage(old(messages), messageId, ToChatMessage(updated.value))
                              else old(messages)))
      ensures selectedMessageId == None && !showMessageMenu
      ensures sessions == old(sessions) && currentSessionId == old(currentSessionId) && input == old(input)
      ensures isTyping == old(isTyping) && sidebarOpen == old(sidebarOpen) && searchTerm == old(searchTerm)
    {
      var found := FindMessage(messages, messageId);
      query := None;
      if found.Some? {
        var params := UpdateMessageQuery(Some(found.value.isImportant != Some(true)), None);
        query := Some(params);
        if updated.Ok? {
          messages := ReplaceMessage(messages, messageId, ToChatMessage(updated.value));
        }
      }
      selectedMessageId := None;
      showMessageMenu := false;
    }

    /** `deleteSession`: once the delete succeeds (`deleted`) the session is
        removed; if it was open, the first remaining session opens with its
        history, or a new session is created when none remain. */
    method DeleteSession(id: string, deleted: bool, history: Result<seq<BackendMessage>, Failure>,
                         created: Result<BackendSession, Failure>, localId: string, now: string)
      modifies this
      ensures !deleted ==> (sessions == old(sessions) && currentSessionId == old(currentSessionId)
        && messages == old(messages))
      ensures deleted && old(currentSessionId) != Some(id) ==> (
        sessions == RemoveSession(old(sessions), id) && currentSessionId == old(currentSessionId)
        && messages == old(messages))
      ensures deleted && old(currentSessionId) == Some(id) && RemoveSession(old(sessions), id) != [] ==> (
        var first := RemoveSession(old(sessions), id)[0];
        sessions == RemoveSession(old(sessions), id) && currentSessionId == Some(first.id)
        && messages == (if history.Ok? then GetChatHistory(history.value) else old(messages)))
      ensures deleted && old(currentSessionId) == Some(id) && RemoveSession(old(sessions), id) == [] ==> (
        if created.Ok? then
          var s := CreatedSession(created.value);
          sessions == [s] && currentSessionId == Some(s.id) && messages == [Welcome(localId, now)]
        else sessions == [] && currentSessionId == old(currentSessionId) && messages == old(messages))
      ensures input == old(input) && searchTerm == old(searchTerm) && isTyping == old(isTyping)
      ensures selectedMessageId == old(selectedMessageId) && showMessageMenu == old(showMessageMenu)
      ensures sidebarOpen == (if deleted && old(currentSessionId) == Some(id) && RemoveSession(old(sessions), id) == []
        && created.Ok? then false else old(sidebarOpen))
    {
      if !deleted {
        return;
      }
      var remaining := RemoveSession(sessions, id);
      sessions := remaining;
      if currentSessionId == Some(id) {
        if |remaining| > 0 {
          currentSessionId := Some(remaining[0].id);
          if history.Ok? {
            messages := GetChatHistory(history.value);
          }
        } else {
          CreateSession(created, localId, now);
        }
      }
    }

    /** `togglePinSession`: asks for the opposite pin state (unset counts as
        false) and puts the updated session in place. `pin` is the value sent. */
    method TogglePinSession(id: string, updated: Result<BackendSession, Failure>) returns (pin: Option<bool>)
      modifies this
      ensures var found := FindSession(old(sessions), id);
        (found.None? ==> pin == None && sessions == old(sessions))
        && (found.Some? ==> (pin == Some(found.value.isPinned != Some(true))
              && sessions == (if updated.Ok? then ReplaceSession(old(sessions), id, UpdatedSession(updated.value))
                              else old(sessions))))
      ensures messages == old(messages) && currentSessionId == old(currentSessionId) && input == old(input)
      ensures isTyping == old(isTyping) && sidebarOpen == old(sidebarOpen) && searchTerm == old(searchTerm)
      ensures selectedMessageId == old(selectedMessageId) && showMessageMenu == old(showMessageMenu)
    {
      var found := FindSession(sessions, id);
      pin := None;
      if found.Some? {
        pin := Some(found.value.isPinned != Some(true));
        if updated.Ok? {
          sessions := ReplaceSession(sessions, id, UpdatedSession(updated.value));
        }
      }
    }

    /** `selectSession`: opens the session with its history, or with no
        messages when loading fails, and closes the sidebar. */
    method SelectSession(s: ChatSession, history: Result<seq<BackendMessage>, Failure>)
      modifies this
      ensures currentSessionId == Some(s.id) && !sidebarOpen
      ensures messages == (if history.Ok? then GetChatHistory(history.value) else [])
      ensures sessions == old(sessions) && input == old(input) && isTyping == old(isTyping)
      ensures searchTerm == old(searchTerm) && selectedMessageId == old(selectedMessageId)
      ensures showMessageMenu == old(showMessageMenu)
    {
      currentSessionId := Some(s.id);
      if history.Ok? {
        messages := GetChatHistory(history.value);
      } else {
        messages := [];
      }
      sidebarOpen := false;
    }
  }
}
