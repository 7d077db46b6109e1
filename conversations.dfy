/** The conversations page (`src/components/pages/Conversations.tsx`): the
    conversation search, sending a message, and the chat pane that shows the
    selected conversation's messages. The clock and the failure of the
    simulated request are parameters. */
module Conversations {
  import opened Seqs
  import opened Text
  import opened Types

  /** The contact name contains the term ignoring case, or the contact number
      contains it exactly as typed. A conversation without a name matches on
      its number only. */
  predicate MatchesSearch(c: Conversation, term: string)
  {
    (c.contactName.Some? && IncludesIgnoringCase(c.contactName.value, term)) ||
    Contains(c.contactNumber, term)
  }

  /** `filteredConversations`. */
  function FilteredConversations(conversations: seq<Conversation>, term: string): (r: seq<Conversation>)
    ensures forall c :: c in r <==> c in conversations && MatchesSearch(c, term)
    ensures IsSubsequence(r, conversations)
  {
    Filter(conversations, (c: Conversation) => MatchesSearch(c, term))
  }

  /** An empty search lists every conversation, named or not. */
  lemma EmptySearchListsAll(conversations: seq<Conversation>)
    ensures FilteredConversations(conversations, "") == conversations
  {
    forall c | c in conversations
      ensures MatchesSearch(c, "")
    {
      ContainsTrivial(c.contactNumber);
    }
    FilterAll(conversations, (c: Conversation) => MatchesSearch(c, ""));
  }

  /** The number is searched as typed: "AB" does not find the number "ab",
      while a name "ab" is found. */
  lemma NumberSearchIsExact(c: Conversation)
    requires c.contactNumber == "ab" && c.contactName == Some("ab")
    ensures !Contains(c.contactNumber, "AB")
    ensures MatchesSearch(c, "AB")
  {
    assert ToLower("AB") == "ab";
    assert ToLower("ab") == "ab";
    assert StartsWith("ab", "ab");
    assert "ab"[1..] == "b";
    assert "b"[1..] == "";
  }

  /** The chat pane: the messages of one conversation, in order. */
  function ChatMessages(messages: seq<Message>, conversationId: string): (r: seq<Message>)
    ensures forall m :: m in r <==> m in messages && m.conversationId == conversationId
    ensures IsSubsequence(r, messages)
  {
    Filter(messages, (m: Message) => m.conversationId == conversationId)
  }

  /** The message `handleSendMessage` builds. */
  function OutgoingMessage(conversationId: string, content: string, idMillis: nat, now: string): Message
  {
    Message(NatToString(idMillis), conversationId, content, Text, Outgoing, now, MessageSent, None, None)
  }

  /** A sent message appears at the end of its own conversation's chat and
      in no other. */
  lemma SentMessageShowsInItsChat(messages: seq<Message>, m: Message, other: string)
    requires other != m.conversationId
    ensures ChatMessages(messages + [m], m.conversationId) == ChatMessages(messages, m.conversationId) + [m]
    ensures ChatMessages(messages + [m], other) == ChatMessages(messages, other)
  {
    FilterAppend(messages, [m], (x: Message) => x.conversationId == m.conversationId);
    FilterAppend(messages, [m], (x: Message) => x.conversationId == other);
    assert Filter([m], (x: Message) => x.conversationId == other) == [];
  }

  class ConversationsPage {
    const conversations: seq<Conversation>
    var selectedConversation: Option<Conversation>
    var newMessage: string
    var searchTerm: string
    var messages: seq<Message>
    var isSending: bool

    /** The page over the sample conversations, the first one selected, with
        the two sample messages. */
    constructor(samples: seq<Conversation>, sampleMessages: seq<Message>)
      ensures conversations == samples && messages == sampleMessages
      ensures selectedConversation == (if samples == [] then None else Some(samples[0]))
      ensures newMessage == "" && searchTerm == "" && !isSending
    {
      conversations := samples;
      selectedConversation := if samples == [] then None else Some(samples[0]);
      newMessage := "";
      searchTerm := "";
      messages := sampleMessages;
      isSending := false;
    }

    /** `handleSendMessage`: nothing happens for a blank message or without a
        selected conversation; otherwise the message, as typed, is appended as
        an outgoing text to the selected conversation and the input is
        cleared, unless the request fails. The sending flag is down afterwards. */
    method HandleSendMessage(idMillis: nat, now: string, fails: bool)
      modifies this`messages, this`newMessage, this`isSending
      ensures IsBlank(old(newMessage)) || selectedConversation.None? ==>
        messages == old(messages) && newMessage == old(newMessage) && isSending == old(isSending)
      ensures !IsBlank(old(newMessage)) && selectedConversation.Some? && !fails ==>
        messages == old(messages) + [OutgoingMessage(selectedConversation.value.id, old(newMessage), idMillis, now)] &&
        newMessage == "" && !isSending
      ensures !IsBlank(old(newMessage)) && selectedConversation.Some? && fails ==>
        messages == old(messages) && newMessage == old(newMessage) && !isSending
    {
      if IsBlank(newMessage) || selectedConversation.None? {
        return;
      }
      isSending := true;
      if !fails {
        messages := messages + [OutgoingMessage(selectedConversation.value.id, newMessage, idMillis, now)];
        newMessage := "";
      }
      isSending := false;
    }
  }
}
