/**
 * The messaging page: a searchable list of conversations and the messages of the selected one.
 * Sending appends the typed text as a new unread message from the current user and empties the
 * input. The message id and time, taken from the clock in the page, are parameters here.
 */
module Messaging {
  import opened Wrappers
  import opened Text
  import opened Lists

  /** The current user's id. */
  const CurrentUser := "user-1"

  datatype Message = Message(
    id: string,
    content: string,
    senderId: string,
    receiverId: string,
    createdAt: string,
    readAt: Option<string>)

  datatype Conversation = Conversation(id: string, name: string, unreadCount: nat, online: bool)

  /** A message is drawn on the right, as the user's own, when the user sent it. */
  predicate IsMine(m: Message) {
    m.senderId == CurrentUser
  }

  /** The tick under a message: only on the user's own, doubled once the message is read. */
  function ReadTick(m: Message): (tick: Option<bool>)
    ensures tick.Some? <==> IsMine(m)
    ensures tick == Some(true) <==> IsMine(m) && m.readAt.Some?
  {
    if IsMine(m) then Some(m.readAt.Some?) else None
  }

  /** The message a send creates. */
  function SentMessage(id: string, content: string, conv: Conversation, createdAt: string): (m: Message)
    ensures IsMine(m) && m.content == content && m.receiverId == conv.id
    ensures ReadTick(m) == Some(false)
  {
    Message(id, content, CurrentUser, conv.id, createdAt, None)
  }

  /** `filteredConversations`: the conversations whose name holds the query, case aside. */
  function FilteredConversations(convs: seq<Conversation>, query: string): (r: seq<Conversation>)
    ensures |r| <= |convs|
    ensures forall k :: 0 <= k < |r| ==> Contains(Lower(r[k].name), Lower(query))
  {
    Filter(convs, (c: Conversation) => Contains(Lower(c.name), Lower(query)))
  }

  /** A conversation is listed exactly when it is one and its name matches. */
  lemma FilteredMembers(convs: seq<Conversation>, query: string, c: Conversation)
    ensures c in FilteredConversations(convs, query) <==> c in convs && Contains(Lower(c.name), Lower(query))
  {
    var p := (c: Conversation) => Contains(Lower(c.name), Lower(query));
    if c in FilteredConversations(convs, query) {
      FilterSubset(convs, p, c);
    }
    if c in convs && p(c) {
      FilterKeeps(convs, p, c);
    }
  }

  /** An empty search lists every conversation, in order. */
  lemma {:induction false} EmptyQueryKeepsAll(convs: seq<Conversation>)
    ensures FilteredConversations(convs, "") == convs
  {
    if convs != [] {
      ContainsTrivial(Lower(convs[0].name));
      EmptyQueryKeepsAll(convs[1..]);
      assert convs == [convs[0]] + convs[1..];
    }
  }

  class MessagingPage {
    var conversations: seq<Conversation>
    var selectedConv: Option<Conversation>
    var messages: seq<Message>
    var newMessage: string
    var searchQuery: string

    constructor(convs: seq<Conversation>, initial: seq<Message>)
      ensures conversations == convs && messages == initial && newMessage == "" && searchQuery == ""
      ensures selectedConv == (if convs == [] then None else Some(convs[0]))
    {
      conversations := convs;
      selectedConv := if convs == [] then None else Some(convs[0]);
      messages := initial;
      newMessage := "";
      searchQuery := "";
    }

    /**
     * `handleSendMessage`: a blank text, or no selected conversation, sends nothing; otherwise
     * the text as typed is appended as one message to the selected conversation and the input
     * is emptied.
     */
    method HandleSendMessage(id: string, createdAt: string)
      modifies this
      ensures Trim(old(newMessage)) == "" || selectedConv.None? ==>
        messages == old(messages) && newMessage == old(newMessage)
      ensures Trim(old(newMessage)) != "" && selectedConv.Some? ==>
        && messages == old(messages) + [SentMessage(id, old(newMessage), selectedConv.value, createdAt)]
        && newMessage == ""
      ensures selectedConv == old(selectedConv) && conversations == old(conversations)
      ensures searchQuery == old(searchQuery)
    {
      if Trim(newMessage) == "" || selectedConv.None? {
        return;
      }
      var message := Message(id, newMessage, CurrentUser, selectedConv.value.id, createdAt, None);
      messages := messages + [message];
      newMessage := "";
    }
  }
}
