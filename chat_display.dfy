/** The display list that the two chat components keep next to the chat hook's
    message list. Both components carry the same two rules, written out twice in the
    source: the user-message sync effect (`components/chat-interface.tsx:66-75`,
    `components/chinese-chatbot.tsx:194-210`) and `processNewMessage`, which appends
    finished assistant replies (`:82-90` and `:68-78`). */
module ChatDisplay {

  /** Roles of the chat hook's messages; display entries only ever hold the first two. */
  datatype Role = User | Assistant | OtherRole(name: string)

  /** A message of the chat hook, or an entry of the display list (timestamps left out). */
  datatype Message = Message(id: string, content: string, role: Role)

  predicate Displayable(m: Message) { m.role == User || m.role == Assistant }

  predicate AllDisplayable(ms: seq<Message>)
  {
    forall i :: 0 <= i < |ms| ==> Displayable(ms[i])
  }

  /** `ms.filter((m) => m.role === "user")`. */
  function UserMessages(ms: seq<Message>): (us: seq<Message>)
    ensures |us| <= |ms|
    ensures forall i :: 0 <= i < |us| ==> us[i].role == User && us[i] in ms
  {
    if ms == [] then []
    else if ms[|ms| - 1].role == User then UserMessages(ms[..|ms| - 1]) + [ms[|ms| - 1]]
    else UserMessages(ms[..|ms| - 1])
  }

  /** Filtering distributes over appending one message. */
  lemma UserMessagesSnoc(ms: seq<Message>, m: Message)
    ensures UserMessages(ms + [m]) == UserMessages(ms) + (if m.role == User then [m] else [])
  {
    assert (ms + [m])[..|ms|] == ms;
  }

  /** Position of the latest user message of `ms`, or -1 when there is none. */
  function LastUserIndex(ms: seq<Message>): (i: int)
    ensures -1 <= i < |ms|
    ensures i >= 0 ==> ms[i].role == User
    ensures forall j :: i < j < |ms| ==> ms[j].role != User
  {
    if ms == [] then -1
    else if ms[|ms| - 1].role == User then |ms| - 1
    else LastUserIndex(ms[..|ms| - 1])
  }

  /** The filtered list is non-empty exactly when some user message exists, and its last
      entry is the latest user message of `ms`. */
  lemma {:induction false} LastUserMessageIsLast(ms: seq<Message>)
    ensures var us := UserMessages(ms);
      && (|us| > 0 <==> LastUserIndex(ms) >= 0)
      && (|us| > 0 ==> us[|us| - 1] == ms[LastUserIndex(ms)])
  {
    if ms != [] && ms[|ms| - 1].role != User {
      var init := ms[..|ms| - 1];
      LastUserMessageIsLast(init);
      if LastUserIndex(init) >= 0 {
        assert ms[LastUserIndex(init)] == init[LastUserIndex(init)];
      }
    }
  }

  /** The sync effect: when the chat holds more user messages than the display list,
      the latest user message is appended as a user entry; otherwise nothing changes. */
  function SyncUserMessages(chat: seq<Message>, display: seq<Message>): (d: seq<Message>)
    ensures |UserMessages(chat)| > |UserMessages(display)| ==>
      var us := UserMessages(chat);
      d == display + [Message(us[|us| - 1].id, us[|us| - 1].content, User)]
    ensures |UserMessages(chat)| <= |UserMessages(display)| ==> d == display
  {
    var us := UserMessages(chat);
    if |us| > |UserMessages(display)| then
      var last := us[|us| - 1];
      display + [Message(last.id, last.content, User)]
    else display
  }

  /** The sync adds exactly one user entry when it fires, keeps what was there, and
      keeps the list displayable. */
  lemma {:induction false} SyncAddsOneUserEntry(chat: seq<Message>, display: seq<Message>)
    ensures var d := SyncUserMessages(chat, display);
      && display <= d
      && (|UserMessages(chat)| > |UserMessages(display)| ==>
            |d| == |display| + 1 && |UserMessages(d)| == |UserMessages(display)| + 1)
      && (AllDisplayable(display) ==> AllDisplayable(d))
  {
    var us := UserMessages(chat);
    if |us| > |UserMessages(display)| {
      UserMessagesSnoc(display, Message(us[|us| - 1].id, us[|us| - 1].content, User));
    }
  }

  /** After one user message is typed, the effect fires once and then settles: running
      it again on the updated list changes nothing. */
  lemma SyncSettlesAfterOneMessage(chat: seq<Message>, display: seq<Message>)
    requires |UserMessages(chat)| == |UserMessages(display)| + 1
    ensures var d := SyncUserMessages(chat, display);
      d != display && SyncUserMessages(chat, d) == d
  {
    SyncAddsOneUserEntry(chat, display);
  }

  /** When the display lags two user messages behind, the effect's re-runs append the
      latest user message twice and never show the earlier one. */
  lemma SyncRepeatsLatestWhenBehind(chat: seq<Message>, display: seq<Message>)
    requires |UserMessages(chat)| == |UserMessages(display)| + 2
    ensures var us := UserMessages(chat);
      var entry := Message(us[|us| - 1].id, us[|us| - 1].content, User);
      var d2 := SyncUserMessages(chat, SyncUserMessages(chat, display));
      d2 == display + [entry, entry] && SyncUserMessages(chat, d2) == d2
  {
    var d1 := SyncUserMessages(chat, display);
    SyncAddsOneUserEntry(chat, display);
    SyncAddsOneUserEntry(chat, d1);
  }

  /** `processNewMessage`'s list update: assistant messages are appended as assistant
      entries, any other message is ignored. */
  function AppendAssistant(display: seq<Message>, m: Message): (d: seq<Message>)
    ensures m.role == Assistant ==> d == display + [Message(m.id, m.content, Assistant)]
    ensures m.role != Assistant ==> d == display
    ensures AllDisplayable(display) ==> AllDisplayable(d)
  {
    if m.role == Assistant then display + [Message(m.id, m.content, Assistant)] else display
  }

  /** Appending a reply never changes the number of user entries, so it never
      triggers the sync effect by itself. */
  lemma AppendAssistantKeepsUserCount(display: seq<Message>, m: Message)
    ensures UserMessages(AppendAssistant(display, m)) == UserMessages(display)
  {
    if m.role == Assistant {
      UserMessagesSnoc(display, Message(m.id, m.content, Assistant));
    }
  }
}
