/** The chat page (`ChatGPTClone` in frontend/src/pages/ChatBotHomePage.jsx):
    the visible message list, the newest-first chat history, the active chat
    id, the loading flag, the text box and the sidebar flag.

    The assistant's reply arrives from a timer that `handleSubmit` starts;
    here it is the separate step `ReceiveReply(text)`, and `pendingReplies`
    counts the timers started and not yet fired. Chat ids (`Date.now()`) and
    the displayed date are supplied by the caller. */
module Chat {
  import opened Options
  import opened Text

  datatype Role = User | Assistant

  datatype Message = Message(role: Role, content: string)

  datatype ChatEntry = ChatEntry(id: int, title: string, date: string)

  const TITLE_LENGTH := 30
  const ELLIPSIS := "..."

  /** The three entries the history starts with. */
  const SEED_HISTORY := [
    ChatEntry(1, "React Components Discussion", "Apr 1"),
    ChatEntry(2, "Tailwind CSS Setup Help", "Apr 2"),
    ChatEntry(3, "JavaScript Async Functions", "Apr 3")
  ]

  /** The reply shown by `loadChat`. */
  const LOADED_REPLY := "Thank you for your message. I'm here to help with any questions you might have."

  datatype ChatState = ChatState(
    messages: seq<Message>,
    chatHistory: seq<ChatEntry>,
    currentChatId: Option<int>,
    isLoading: bool,
    input: string,
    isSidebarOpen: bool,
    pendingReplies: nat)

  function Mounted(): ChatState {
    ChatState([], SEED_HISTORY, None, false, "", true, 0)
  }

  /** The title of a new chat: the first 30 characters of the input, with an
      ellipsis exactly when the input is longer. The input is not trimmed. */
  function Title(input: string): (title: string)
    ensures |title| <= TITLE_LENGTH + |ELLIPSIS|
    ensures var n := if |input| < TITLE_LENGTH then |input| else TITLE_LENGTH;
      n <= |title| && title[..n] == input[..n]
    ensures |input| <= TITLE_LENGTH ==> title == input
    ensures |input| > TITLE_LENGTH <==> |title| == TITLE_LENGTH + |ELLIPSIS| && title[TITLE_LENGTH..] == ELLIPSIS
  {
    var cut := if |input| < TITLE_LENGTH then input else input[..TITLE_LENGTH];
    cut + (if |input| > TITLE_LENGTH then ELLIPSIS else "")
  }

  /** `handleSubmit`: nothing happens for a blank input; otherwise a chat is
      created first if none is active, the user's message is appended, a
      reply is scheduled and the text box is emptied. The loading flag is
      not consulted. */
  function Submitted(s: ChatState, nowMs: int, date: string): ChatState {
    if Trim(s.input) == [] then s
    else
      var creates := s.currentChatId.None?;
      s.(chatHistory :=
           if creates then [ChatEntry(nowMs, Title(s.input), date)] + s.chatHistory else s.chatHistory,
         currentChatId := if creates then Some(nowMs) else s.currentChatId,
         messages := s.messages + [Message(User, s.input)],
         isLoading := true,
         pendingReplies := s.pendingReplies + 1,
         input := "")
  }

  /** The scheduled reply: appended to whatever messages are visible when it
      fires. */
  function Replied(s: ChatState, text: string): ChatState
    requires s.pendingReplies > 0
  {
    s.(messages := s.messages + [Message(Assistant, text)],
       isLoading := false,
       pendingReplies := s.pendingReplies - 1)
  }

  function NewChatStarted(s: ChatState): ChatState {
    s.(currentChatId := None, messages := [], input := "")
  }

  function Cleared(s: ChatState): ChatState {
    s.(messages := [])
  }

  /** The user line `loadChat` shows for a chat id. */
  function LoadedPrompt(chatId: int): string {
    "This is chat " + IntToDecimal(chatId) + ". Previous message example."
  }

  /** `loadChat(chatId)`: any id is accepted; the two stand-in messages
      replace the visible ones. */
  function Loaded(s: ChatState, chatId: int): ChatState {
    s.(currentChatId := Some(chatId),
       messages := [Message(User, LoadedPrompt(chatId)), Message(Assistant, LOADED_REPLY)])
  }

  function SidebarToggled(s: ChatState): ChatState {
    s.(isSidebarOpen := !s.isSidebarOpen)
  }

  function InputEdited(s: ChatState, text: string): ChatState {
    s.(input := text)
  }

  /** The send button is enabled: `!(!input.trim() || isLoading)`. */
  predicate SendEnabled(s: ChatState) {
    !(Trim(s.input) == [] || s.isLoading)
  }

  /** What `formatMessage` renders for one line: the text, or a line break
      for an empty line. */
  datatype Block = Line(text: string) | LineBreak

  function BlockText(b: Block): string {
    match b
    case Line(t) => t
    case LineBreak => ""
  }

  /** `formatMessage(content)`: split on newlines, one block per line. */
  function FormatMessage(content: string): seq<Block> {
    var lines := Lines(content);
    seq(|lines|, i requires 0 <= i < |lines| => if lines[i] == "" then LineBreak else Line(lines[i]))
  }

  /** What holds in every state the page can reach (the constructor sets it
      up and every method keeps it): loading implies a reply is still
      scheduled, every title fits in 33 characters, and the seeded chats stay
      at the end of the history. It is a statement about reachable states;
      no operation's result depends on it. */
  ghost predicate Inv(s: ChatState) {
    && (s.isLoading ==> s.pendingReplies > 0)
    && HistoryInv(s.chatHistory)
  }

  ghost predicate HistoryInv(h: seq<ChatEntry>) {
    && (forall i :: 0 <= i < |h| ==> |h[i].title| <= TITLE_LENGTH + |ELLIPSIS|)
    && |h| >= |SEED_HISTORY|
    && h[|h| - |SEED_HISTORY|..] == SEED_HISTORY
  }

  class ChatGPTClone {
    var messages: seq<Message>
    var chatHistory: seq<ChatEntry>
    var currentChatId: Option<int>
    var isLoading: bool
    var input: string
    var isSidebarOpen: bool
    var pendingReplies: nat

    function State(): ChatState
      reads this
    {
      ChatState(messages, chatHistory, currentChatId, isLoading, input, isSidebarOpen, pendingReplies)
    }

    ghost predicate Valid()
      reads this
    {
      Inv(State())
    }

    constructor ()
      ensures State() == Mounted() && Valid()
    {
      messages := [];
      chatHistory := SEED_HISTORY;
      currentChatId := None;
      isLoading := false;
      input := "";
      isSidebarOpen := true;
      pendingReplies := 0;
    }

    method HandleSubmit(nowMs: int, date: string)
      requires Valid()
      modifies this
      ensures State() == Submitted(old(State()), nowMs, date) && Valid()
    {
      ghost var before := State();
      SubmitKeepsInv(before, nowMs, date);
      if Trim(input) == [] {
        assert Submitted(before, nowMs, date) == before;
        return;
      }
      assert Submitted(before, nowMs, date).input == "";
      if currentChatId.None? {
        chatHistory := [ChatEntry(nowMs, Title(input), date)] + chatHistory;
        currentChatId := Some(nowMs);
      }
      messages := messages + [Message(User, input)];
      isLoading := true;
      pendingReplies := pendingReplies + 1;
      input := "";
    }

    method ReceiveReply(text: string)
      requires Valid() && pendingReplies > 0
      modifies this
      ensures State() == Replied(old(State()), text) && Valid()
    {
      messages := messages + [Message(Assistant, text)];
      isLoading := false;
      pendingReplies := pendingReplies - 1;
    }

    method StartNewChat()
      requires Valid()
      modifies this
      ensures State() == NewChatStarted(old(State())) && Valid()
    {
      currentChatId := None;
      messages := [];
      input := "";
    }

    method ClearChat()
      requires Valid()
      modifies this
      ensures State() == Cleared(old(State())) && Valid()
    {
      messages := [];
    }

    method LoadChat(chatId: int)
      requires Valid()
      modifies this
      ensures State() == Loaded(old(State()), chatId) && Valid()
    {
      currentChatId := Some(chatId);
      messages := [Message(User, LoadedPrompt(chatId)), Message(Assistant, LOADED_REPLY)];
    }

    method ToggleSidebar()
      requires Valid()
      modifies this
      ensures State() == SidebarToggled(old(State())) && Valid()
    {
      isSidebarOpen := !isSidebarOpen;
    }

    /** The text box's `onChange`. */
    method SetInput(text: string)
      requires Valid()
      modifies this
      ensures State() == InputEdited(old(State()), text) && Valid()
    {
      input := text;
    }
  }

  // ---------------------------------------------------------------------
  // Properties of the page's transitions

  /** Every transition keeps the page invariant. */
  lemma SubmitKeepsInv(s: ChatState, nowMs: int, date: string)
    requires Inv(s)
    ensures Inv(Submitted(s, nowMs, date))
  {
    var r := Submitted(s, nowMs, date);
    if Trim(s.input) != [] {
      assert r.isLoading && r.pendingReplies > 0;
      if s.currentChatId.None? {
        var e := ChatEntry(nowMs, Title(s.input), date);
        assert r.chatHistory == [e] + s.chatHistory;
        PrependKeepsHistoryInv(e, s.chatHistory);
      }
    }
  }

  /** A new chat whose title fits, put in front, keeps the history's shape. */
  lemma PrependKeepsHistoryInv(e: ChatEntry, h: seq<ChatEntry>)
    requires HistoryInv(h) && |e.title| <= TITLE_LENGTH + |ELLIPSIS|
    ensures HistoryInv([e] + h)
  {
    var h' := [e] + h;
    forall i | 0 <= i < |h'| ensures |h'[i].title| <= TITLE_LENGTH + |ELLIPSIS| {
      if i > 0 {
        assert h'[i] == h[i - 1];
      }
    }
    assert h'[|h'| - |SEED_HISTORY|..] == h[|h| - |SEED_HISTORY|..];
  }

  lemma MountedSatisfiesInv()
    ensures Inv(Mounted())
  {
  }

  /** Submitting a blank input (empty or only whitespace) changes nothing. */
  lemma SubmitBlankIsNoOp(s: ChatState, nowMs: int, date: string)
    requires IsBlank(s.input)
    ensures Submitted(s, nowMs, date) == s
  {
    TrimEmptyIffBlank(s.input);
  }

  /** With no active chat, a non-blank submit puts exactly one new chat, with
      the given id, at the head of the history, keeps the older entries in
      order behind it, and makes it the active chat. */
  lemma SubmitCreatesChat(s: ChatState, nowMs: int, date: string)
    requires !IsBlank(s.input) && s.currentChatId.None?
    ensures var r := Submitted(s, nowMs, date);
      |r.chatHistory| == |s.chatHistory| + 1 &&
      r.chatHistory[0] == ChatEntry(nowMs, Title(s.input), date) &&
      r.chatHistory[1..] == s.chatHistory &&
      r.currentChatId == Some(nowMs)
  {
    TrimEmptyIffBlank(s.input);
  }

  /** With a chat active, a submit leaves the history and the active chat
      alone. */
  lemma SubmitKeepsActiveChat(s: ChatState, nowMs: int, date: string)
    requires s.currentChatId.Some?
    ensures var r := Submitted(s, nowMs, date);
      r.chatHistory == s.chatHistory && r.currentChatId == s.currentChatId
  {
  }

  /** A non-blank submit appends exactly the user's input as a user message
      after the earlier messages, turns loading on, schedules one reply and
      empties the text box, whether or not a reply was already pending. */
  lemma SubmitAppendsUserMessage(s: ChatState, nowMs: int, date: string)
    requires !IsBlank(s.input)
    ensures var r := Submitted(s, nowMs, date);
      r.messages == s.messages + [Message(User, s.input)] &&
      r.isLoading && r.pendingReplies == s.pendingReplies + 1 && r.input == "" &&
      r.isSidebarOpen == s.isSidebarOpen
  {
    TrimEmptyIffBlank(s.input);
  }

  /** The reply appends exactly one assistant message after the visible
      ones and stops loading; history and active chat are untouched. */
  lemma ReplyAppendsAssistantMessage(s: ChatState, text: string)
    requires s.pendingReplies > 0
    ensures var r := Replied(s, text);
      r.messages == s.messages + [Message(Assistant, text)] && !r.isLoading &&
      r.chatHistory == s.chatHistory && r.currentChatId == s.currentChatId &&
      r.input == s.input
  {
  }

  /** A reply is not tied to the chat it answers: one that fires after
      "new chat" becomes the only message of the fresh screen. */
  lemma ReplyAfterNewChatLandsInNewScreen(s: ChatState, text: string)
    requires s.pendingReplies > 0
    ensures Replied(NewChatStarted(s), text).messages == [Message(Assistant, text)]
    ensures Replied(NewChatStarted(s), text).currentChatId.None?
  {
  }

  /** Two submits in a row (the Enter key bypasses the disabled button) put
      both user messages in order, and the first reply turns loading off
      while the second is still scheduled. */
  lemma FirstReplyEndsLoadingEarly(s: ChatState, a: string, b: string, t1: int, t2: int, d: string, reply: string)
    requires !IsBlank(a) && !IsBlank(b)
    ensures var r := Replied(Submitted(InputEdited(Submitted(InputEdited(s, a), t1, d), b), t2, d), reply);
      r.messages == s.messages + [Message(User, a), Message(User, b), Message(Assistant, reply)] &&
      !r.isLoading && r.pendingReplies == s.pendingReplies + 1
  {
    var e1 := InputEdited(s, a);
    var s1 := Submitted(e1, t1, d);
    SubmitAppendsUserMessage(e1, t1, d);
    var e2 := InputEdited(s1, b);
    var s2 := Submitted(e2, t2, d);
    SubmitAppendsUserMessage(e2, t2, d);
    var r := Replied(s2, reply);
    ReplyAppendsAssistantMessage(s2, reply);
    assert s2.messages == s.messages + [Message(User, a), Message(User, b)];
  }

  /** "New chat" deactivates the chat and empties messages and text box,
      "clear chat" empties only the messages; neither touches the history. */
  lemma NewChatAndClear(s: ChatState)
    ensures var r := NewChatStarted(s);
      r.currentChatId.None? && r.messages == [] && r.input == "" &&
      r.chatHistory == s.chatHistory && r.isLoading == s.isLoading
    ensures Cleared(s) == s.(messages := [])
  {
  }

  /** `loadChat` activates any id and shows exactly a user line that names
      the id followed by the canned assistant reply; different ids give
      different user lines. */
  lemma LoadChatShowsId(s: ChatState, chatId: int, other: int)
    ensures var r := Loaded(s, chatId);
      r.currentChatId == Some(chatId) && |r.messages| == 2 &&
      r.messages[0] == Message(User, LoadedPrompt(chatId)) && r.messages[1] == Message(Assistant, LOADED_REPLY) &&
      r.chatHistory == s.chatHistory
    ensures var d := IntToDecimal(chatId);
      |LoadedPrompt(chatId)| >= 13 + |d| && LoadedPrompt(chatId)[13..13 + |d|] == d
    ensures LoadedPrompt(chatId) == LoadedPrompt(other) ==> chatId == other
  {
    if LoadedPrompt(chatId) == LoadedPrompt(other) {
      var p := "This is chat ";
      var q := ". Previous message example.";
      var da, db := IntToDecimal(chatId), IntToDecimal(other);
      var text := LoadedPrompt(chatId);
      assert |text| == |p| + |da| + |q|;
      assert |LoadedPrompt(other)| == |p| + |db| + |q|;
      assert text[|p|..|p| + |da|] == da;
      assert LoadedPrompt(other)[|p|..|p| + |db|] == db;
      IntToDecimalInjective(chatId, other);
    }
  }

  /** The send button is enabled exactly when the input has a non-whitespace
      character and no reply is awaited. */
  lemma SendEnabledIff(s: ChatState)
    ensures SendEnabled(s) <==> !IsBlank(s.input) && !s.isLoading
  {
    TrimEmptyIffBlank(s.input);
  }

  /** Toggling the sidebar twice restores the page. */
  lemma ToggleTwiceIsIdentity(s: ChatState)
    ensures SidebarToggled(SidebarToggled(s)) == s
    ensures SidebarToggled(s).isSidebarOpen != s.isSidebarOpen
  {
  }

  /** `formatMessage` yields one block per line of the content, a line break
      exactly for the empty lines, and joining the blocks' text with
      newlines gives back the content. */
  lemma FormatMessageRoundTrip(content: string)
    ensures var blocks := FormatMessage(content);
      |blocks| == |Lines(content)| >= 1 &&
      (forall i :: 0 <= i < |blocks| ==> (blocks[i] == LineBreak <==> Lines(content)[i] == "")) &&
      JoinLines(seq(|blocks|, i requires 0 <= i < |blocks| => BlockText(blocks[i]))) == content
  {
    var blocks := FormatMessage(content);
    var texts := seq(|blocks|, i requires 0 <= i < |blocks| => BlockText(blocks[i]));
    assert texts == Lines(content);
    JoinLinesOfLines(content);
  }
}
