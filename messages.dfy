/** The messages page (frontend/src/pages/Messages.jsx). The file holds both
    sides of a merge conflict. The "main" side keeps one message list per
    conversation in a map keyed by conversation id and searches names and
    usernames; the HEAD side keeps a single message list and searches names
    only. Both send only non-blank input, append one message numbered one
    past the list's length, and clear the input afterwards. The clock that
    stamps a message is a parameter. */
module MessagesPage {
  import opened Common
  import opened Text

  /** A conversation in the sidebar. HEAD's records have no `username`;
      its search never reads that field. */
  datatype Conversation = Conversation(
    id: int,
    name: string,
    username: string,
    avatar: string,
    lastMessage: string,
    timestamp: string,
    unread: int,
    online: bool)

  // ---------------------------------------------------------------------
  // Conversation search

  /** `conv.name.toLowerCase().includes(q) || conv.username.toLowerCase().includes(q)`
      with `q` the lower-cased query. */
  predicate Matches(c: Conversation, query: string)
  {
    Contains(ToLower(c.name), ToLower(query)) || Contains(ToLower(c.username), ToLower(query))
  }

  /** `convs.filter(keep)`: the conversations `keep` accepts, in sidebar order. */
  function Filter(convs: seq<Conversation>, keep: Conversation -> bool): (r: seq<Conversation>)
    ensures |r| <= |convs|
    ensures forall c :: c in r <==> c in convs && keep(c)
  {
    if convs == [] then []
    else (if keep(convs[0]) then [convs[0]] else []) + Filter(convs[1..], keep)
  }

  /** A filter that accepts every conversation keeps the list as it is. */
  lemma {:induction false} FilterKeepsAll(convs: seq<Conversation>, keep: Conversation -> bool)
    requires forall c | c in convs :: keep(c)
    ensures Filter(convs, keep) == convs
  {
    if convs != [] {
      FilterKeepsAll(convs[1..], keep);
      assert convs == [convs[0]] + convs[1..];
    }
  }

  /** Filtering a filtered list again with the same test changes nothing. */
  lemma FilterIdempotent(convs: seq<Conversation>, keep: Conversation -> bool)
    ensures Filter(Filter(convs, keep), keep) == Filter(convs, keep)
  {
    FilterKeepsAll(Filter(convs, keep), keep);
  }

  /** `filteredConversations`: the conversations the query matches, in sidebar order. */
  function Search(convs: seq<Conversation>, query: string): (r: seq<Conversation>)
    ensures |r| <= |convs|
    ensures forall c :: c in r <==> c in convs && Matches(c, query)
  {
    Filter(convs, (c: Conversation) => Matches(c, query))
  }

  /** An empty search box lists every conversation. */
  lemma SearchEmptyKeepsAll(convs: seq<Conversation>)
    ensures Search(convs, "") == convs
  {
    assert ToLower("") == "";
    forall c | c in convs ensures Matches(c, "") {
      ContainsEmpty(ToLower(c.name));
    }
    FilterKeepsAll(convs, (c: Conversation) => Matches(c, ""));
  }

  /** Searching the search results again with the same query changes nothing. */
  lemma SearchIdempotent(convs: seq<Conversation>, query: string)
    ensures Search(Search(convs, query), query) == Search(convs, query)
  {
    FilterIdempotent(convs, (c: Conversation) => Matches(c, query));
  }

  /** HEAD's `filteredConversations`: the query must occur in the lower-cased name. */
  function HeadSearch(convs: seq<Conversation>, query: string): (r: seq<Conversation>)
    ensures |r| <= |convs|
    ensures forall c :: c in r <==> c in convs && Contains(ToLower(c.name), ToLower(query))
  {
    Filter(convs, (c: Conversation) => Contains(ToLower(c.name), ToLower(query)))
  }

  /** Every conversation HEAD's search keeps, the main side's search keeps too:
      adding the username can only widen the result. */
  lemma HeadSearchWithinSearch(convs: seq<Conversation>, query: string)
    ensures forall c | c in HeadSearch(convs, query) :: c in Search(convs, query)
  {
  }

  // ---------------------------------------------------------------------
  // Sending, main side: one list per conversation

  datatype Sender = Me | Contact(id: int)

  datatype ChatMessage = ChatMessage(
    id: int,
    senderId: Sender,
    senderName: string,
    content: string,
    timestamp: string,
    isMine: bool)

  /** `chatMessages[c] || []`: the conversation's list, empty when it has none. */
  function MessagesOf(chats: map<int, seq<ChatMessage>>, c: int): (r: seq<ChatMessage>)
    ensures c !in chats ==> r == []
  {
    if c in chats then chats[c] else []
  }

  /** The message built for the typed text. */
  function OwnMessage(id: int, content: string, now: string): ChatMessage
  {
    ChatMessage(id, Me, "You", content, now, true)
  }

  /** The conversations after sending `input` to `selected`: only the
      selected conversation can change, and no conversation disappears. */
  function Sent(chats: map<int, seq<ChatMessage>>, selected: int, input: string, now: string): (r: map<int, seq<ChatMessage>>)
    ensures chats.Keys <= r.Keys <= chats.Keys + {selected}
    ensures forall c | c in chats && c != selected :: r[c] == chats[c]
  {
    if Trim(input) == "" then chats
    else
      var ms := MessagesOf(chats, selected);
      chats[selected := ms + [OwnMessage(|ms| + 1, input, now)]]
  }

  /** Blank input changes nothing. Otherwise the selected conversation, which
      now exists even if it had no history, gains exactly one message of the
      user's own at its end, numbered one past its old length; every other
      conversation keeps its list. */
  lemma SentEffect(chats: map<int, seq<ChatMessage>>, selected: int, input: string, now: string)
    ensures IsBlank(input) ==> Sent(chats, selected, input, now) == chats
    ensures !IsBlank(input) ==>
      var r := Sent(chats, selected, input, now);
      var old_ := MessagesOf(chats, selected);
      r.Keys == chats.Keys + {selected}
      && |r[selected]| == |old_| + 1 && r[selected][..|old_|] == old_
      && r[selected][|old_|].id == |old_| + 1
      && r[selected][|old_|].isMine && r[selected][|old_|].content == input
      && forall c | c in chats && c != selected :: r[c] == chats[c]
  {
    if !IsBlank(input) {
      assert Trim(input) != "";
      var old_ := MessagesOf(chats, selected);
      assert (old_ + [OwnMessage(|old_| + 1, input, now)])[..|old_|] == old_;
    }
  }

  /** Each list's messages carry ids 1, 2, 3, ... in order. */
  predicate Numbered(ms: seq<ChatMessage>)
  {
    forall k | 0 <= k < |ms| :: ms[k].id == k + 1
  }

  predicate AllNumbered(chats: map<int, seq<ChatMessage>>)
  {
    forall c | c in chats :: Numbered(chats[c])
  }

  /** Numbering one past the length keeps every list numbered. */
  lemma SentKeepsNumbered(chats: map<int, seq<ChatMessage>>, selected: int, input: string, now: string)
    requires AllNumbered(chats)
    ensures AllNumbered(Sent(chats, selected, input, now))
  {
    var ms := MessagesOf(chats, selected);
    assert Numbered(ms);
  }

  /** The Enter key without Shift sends; any other key does not. */
  predicate SendsOnKey(key: string, shiftKey: bool)
  {
    key == "Enter" && !shiftKey
  }

  class ChatPage {
    var selectedChat: int
    var messageInput: string
    var searchQuery: string
    var chatMessages: map<int, seq<ChatMessage>>

    predicate Valid()
      reads this
    {
      AllNumbered(chatMessages)
    }

    /** The page opens on conversation 1 with empty inputs. */
    constructor (initial: map<int, seq<ChatMessage>>)
      requires AllNumbered(initial)
      ensures selectedChat == 1 && messageInput == "" && searchQuery == ""
      ensures chatMessages == initial
      ensures Valid()
    {
      selectedChat := 1;
      messageInput := "";
      searchQuery := "";
      chatMessages := initial;
    }

    /** The messages shown for the selected conversation. */
    function Messages(): (r: seq<ChatMessage>)
      reads this
      ensures Valid() ==> Numbered(r)
    {
      MessagesOf(chatMessages, selectedChat)
    }

    method SelectChat(id: int)
      modifies this
      ensures selectedChat == id
      ensures messageInput == old(messageInput) && searchQuery == old(searchQuery)
      ensures chatMessages == old(chatMessages)
    {
      selectedChat := id;
    }

    method SetMessageInput(text: string)
      modifies this
      ensures messageInput == text
      ensures selectedChat == old(selectedChat) && searchQuery == old(searchQuery)
      ensures chatMessages == old(chatMessages)
    {
      messageInput := text;
    }

    method SetSearchQuery(text: string)
      modifies this
      ensures searchQuery == text
      ensures selectedChat == old(selectedChat) && messageInput == old(messageInput)
      ensures chatMessages == old(chatMessages)
    {
      searchQuery := text;
    }

    /** `handleSendMessage`: appends to the selected conversation and clears
        the input, or does nothing on blank input. */
    method HandleSendMessage(now: string)
      requires Valid()
      modifies this
      ensures chatMessages == Sent(old(chatMessages), selectedChat, old(messageInput), now)
      ensures messageInput == (if IsBlank(old(messageInput)) then old(messageInput) else "")
      ensures selectedChat == old(selectedChat) && searchQuery == old(searchQuery)
      ensures Valid()
    {
      SentKeepsNumbered(chatMessages, selectedChat, messageInput, now);
      SentEffect(chatMessages, selectedChat, messageInput, now);
      if Trim(messageInput) != "" {
        var ms := MessagesOf(chatMessages, selectedChat);
        chatMessages := chatMessages[selectedChat := ms + [OwnMessage(|ms| + 1, messageInput, now)]];
        messageInput := "";
      }
    }

    /** `handleKeyPress`: Enter without Shift sends. */
    method HandleKeyPress(key: string, shiftKey: bool, now: string)
      requires Valid()
      modifies this
      ensures SendsOnKey(key, shiftKey) ==>
        chatMessages == Sent(old(chatMessages), selectedChat, old(messageInput), now)
        && messageInput == (if IsBlank(old(messageInput)) then old(messageInput) else "")
      ensures !SendsOnKey(key, shiftKey) ==>
        chatMessages == old(chatMessages) && messageInput == old(messageInput)
      ensures selectedChat == old(selectedChat) && searchQuery == old(searchQuery)
      ensures Valid()
    {
      if key == "Enter" && !shiftKey {
        HandleSendMessage(now);
      }
    }
  }

  // ---------------------------------------------------------------------
  // Sending, HEAD side: one list for the open conversation

  datatype HeadMessage = HeadMessage(id: int, sender: string, text: string, timestamp: string)

  /** `[...messages, message]` for non-blank input, the list unchanged otherwise. */
  function HeadSent(messages: seq<HeadMessage>, input: string, now: string): seq<HeadMessage>
  {
    if Trim(input) == "" then messages
    else messages + [HeadMessage(|messages| + 1, "me", input, now)]
  }

  /** Blank input changes nothing; otherwise exactly one message from "me"
      holding the text as typed is added at the end, numbered one past the old length. */
  lemma HeadSentEffect(messages: seq<HeadMessage>, input: string, now: string)
    ensures IsBlank(input) ==> HeadSent(messages, input, now) == messages
    ensures !IsBlank(input) ==>
      var r := HeadSent(messages, input, now);
      |r| == |messages| + 1 && r[..|messages|] == messages
      && r[|messages|].id == |messages| + 1
      && r[|messages|].sender == "me" && r[|messages|].text == input
  {
    if !IsBlank(input) {
      assert Trim(input) != "";
      assert HeadSent(messages, input, now)[..|messages|] == messages;
    }
  }

  predicate HeadNumbered(ms: seq<HeadMessage>)
  {
    forall k | 0 <= k < |ms| :: ms[k].id == k + 1
  }

  lemma HeadSentKeepsNumbered(messages: seq<HeadMessage>, input: string, now: string)
    requires HeadNumbered(messages)
    ensures HeadNumbered(HeadSent(messages, input, now))
  {
    if Trim(input) != "" {
      var r := HeadSent(messages, input, now);
      assert r == messages + [HeadMessage(|messages| + 1, "me", input, now)];
      forall k | 0 <= k < |r|
        ensures r[k].id == k + 1
      {
        if k < |messages| {
          assert r[k] == messages[k];
        }
      }
    }
  }

  class HeadChatPage {
    var messages: seq<HeadMessage>
    var selectedConversation: Conversation
    var newMessage: string
    var searchQuery: string

    /** The page opens on the first conversation with empty inputs. */
    constructor (conversations: seq<Conversation>, initial: seq<HeadMessage>)
      requires |conversations| > 0 && HeadNumbered(initial)
      ensures messages == initial && selectedConversation == conversations[0]
      ensures newMessage == "" && searchQuery == ""
    {
      messages := initial;
      selectedConversation := conversations[0];
      newMessage := "";
      searchQuery := "";
    }

    method SelectConversation(c: Conversation)
      modifies this
      ensures selectedConversation == c
      ensures messages == old(messages) && newMessage == old(newMessage) && searchQuery == old(searchQuery)
    {
      selectedConversation := c;
    }

    method SetNewMessage(text: string)
      modifies this
      ensures newMessage == text
      ensures messages == old(messages) && selectedConversation == old(selectedConversation)
      ensures searchQuery == old(searchQuery)
    {
      newMessage := text;
    }

    /** HEAD's `handleSendMessage` (the form's submit and Enter in the text box). */
    method HandleSendMessage(now: string)
      modifies this
      ensures messages == HeadSent(old(messages), old(newMessage), now)
      ensures newMessage == (if IsBlank(old(newMessage)) then old(newMessage) else "")
      ensures HeadNumbered(old(messages)) ==> HeadNumbered(messages)
      ensures selectedConversation == old(selectedConversation) && searchQuery == old(searchQuery)
    {
      HeadSentEffect(messages, newMessage, now);
      if HeadNumbered(messages) {
        HeadSentKeepsNumbered(messages, newMessage, now);
      }
      if Trim(newMessage) != "" {
        messages := messages + [HeadMessage(|messages| + 1, "me", newMessage, now)];
        newMessage := "";
      }
    }
  }
}
