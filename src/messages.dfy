/** The messages page: starting a conversation, sending a message (with its
    optimistic temporary copy), the conversation search and the time labels. */
module Messages {
  import opened Wrappers
  import opened Text
  import Lists
  import TimeAgo

  datatype LastMessage = LastMessage(content: string, createdAt: string, senderId: int)

  datatype Conversation = Conversation(id: int, participantId: int, participantName: string,
                                       lastMessage: Option<LastMessage>, unreadCount: int)

  datatype Message = Message(id: int, content: string, senderId: int, createdAt: string, read: bool, sending: bool)

  /** `conversations.find(conv => conv.participant.id == userId)`. */
  function FindByParticipant(l: seq<Conversation>, userId: int): (r: Option<Conversation>)
    ensures r.Some? ==> r.value in l && r.value.participantId == userId
    ensures r.None? ==> forall c :: c in l ==> c.participantId != userId
  {
    if l == [] then None else if l[0].participantId == userId then Some(l[0]) else FindByParticipant(l[1..], userId)
  }

  /** The conversation opened with someone new. */
  function NewConversation(id: int, userId: int): Conversation {
    Conversation(id, userId, "Novo Contato", None, 0)
  }

  /** `filteredConversations`: names containing the search, ignoring case, in order. */
  function FilteredConversations(l: seq<Conversation>, searchTerm: string): (r: seq<Conversation>)
    ensures forall c :: c in r <==> c in l && Contains(Lower(c.participantName), Lower(searchTerm))
    ensures Lists.Subsequence(r, l)
  {
    var keep := (c: Conversation) => Contains(Lower(c.participantName), Lower(searchTerm));
    Lists.FilterSubsequence(l, keep);
    Lists.Filter(l, keep)
  }

  lemma ContainsEmpty(hay: string)
    ensures Contains(hay, "")
  {
  }

  /** An empty search shows every conversation. */
  lemma EmptySearchShowsAll(l: seq<Conversation>)
    ensures FilteredConversations(l, "") == l
  {
    var keep := (c: Conversation) => Contains(Lower(c.participantName), Lower(""));
    forall c | c in l
      ensures keep(c)
    {
      ContainsEmpty(Lower(c.participantName));
    }
    Lists.FilterAll(l, keep);
  }

  /** `formatTime(...)` for a minute count; `None` stands for the calendar-date
      labels used from a day on. */
  function FormatTime(diffInMinutes: int): (r: Option<string>)
    ensures diffInMinutes < 1440 <==> r.Some?
    ensures r.Some? ==> r.value == TimeAgo.FormatAgo(diffInMinutes, "m")
  {
    if diffInMinutes < 1440 then Some(TimeAgo.FormatAgo(diffInMinutes, "m")) else None
  }

  /** Replacing the temporary message once the backend answered. */
  function Confirm(m: Message, tempId: int, server: Option<Message>): Message {
    if m.id != tempId then m
    else if server.Some? then server.value.(sending := false)
    else m.(sending := false)
  }

  function ConfirmAll(l: seq<Message>, tempId: int, server: Option<Message>): (r: seq<Message>)
    ensures |r| == |l|
    ensures forall i :: 0 <= i < |l| ==> r[i] == Confirm(l[i], tempId, server)
  {
    Lists.Map(l, (m: Message) => Confirm(m, tempId, server))
  }

  /** The `last_message` update on the selected conversation only. */
  function SetLastMessage(l: seq<Conversation>, conversationId: int, last: LastMessage): (r: seq<Conversation>)
    ensures |r| == |l|
    ensures forall i :: 0 <= i < |l| ==> r[i] == if l[i].id == conversationId then l[i].(lastMessage := Some(last)) else l[i]
  {
    Lists.Map(l, (c: Conversation) => if c.id == conversationId then c.(lastMessage := Some(last)) else c)
  }

  /** `prev.filter(msg => msg.id !== tempId)`. */
  function WithoutMessage(l: seq<Message>, tempId: int): (r: seq<Message>)
    ensures forall m :: m in r <==> m in l && m.id != tempId
  {
    Lists.Filter(l, (m: Message) => m.id != tempId)
  }

  /** The messages after a failed send as evidently intended: the temporary message is removed. */
  function MessagesAfterFailure(withTemp: seq<Message>, temp: Message): (r: seq<Message>)
    ensures temp !in r
    ensures forall m :: m in r <==> m in withTemp && m.id != temp.id
  {
    WithoutMessage(withTemp, temp.id)
  }

  /** What React does with a `setMessages` updater: the list it returns, or an
      error it throws while rendering, which no error boundary catches, so the
      whole application unmounts. */
  datatype Applied = Updated(messages: seq<Message>) | RenderCrash

  /** The failure updater `prev => prev.filter(msg => msg.id !== tempMessage.id)`
      applied to `prev`. `visible` is what the name `tempMessage` resolves to in
      the `catch` block: as written it is declared with `const` inside the `try`
      block, so it resolves to nothing and reading it throws a ReferenceError.
      The name is read only inside the filter callback, which an empty list
      never calls. */
  function ApplyRollback(prev: seq<Message>, visible: Option<Message>): (r: Applied)
    ensures r.RenderCrash? <==> visible.None? && prev != []
    ensures r.Updated? && visible.Some? ==> r.messages == MessagesAfterFailure(prev, visible.value)
    ensures r.Updated? && visible.None? ==> r.messages == []
  {
    match visible
    case None => if prev == [] then Updated([]) else RenderCrash
    case Some(temp) => Updated(MessagesAfterFailure(prev, temp))
  }

  /** As written a failed send crashes the application while rendering; with the
      temporary message in scope, the rollback restores exactly the list as it was
      before the send whenever the temporary id is new. */
  lemma FailedSendRollback(before: seq<Message>, temp: Message)
    requires forall m :: m in before ==> m.id != temp.id
    ensures ApplyRollback(before + [temp], None) == RenderCrash
    ensures ApplyRollback(before + [temp], Some(temp)) == Updated(before)
  {
    var keep := (m: Message) => m.id != temp.id;
    Lists.FilterAll(before, keep);
    assert Lists.Filter([temp], keep) == [];
    FilterAppend(before, [temp], keep);
  }

  lemma {:induction false} FilterAppend<T(!new)>(a: seq<T>, b: seq<T>, keep: T -> bool)
    ensures Lists.Filter(a + b, keep) == Lists.Filter(a, keep) + Lists.Filter(b, keep)
  {
    if a != [] {
      assert (a + b)[1..] == a[1..] + b;
      FilterAppend(a[1..], b, keep);
    } else {
      assert a + b == b;
    }
  }

  /** What the send call did. On success, `sentAt` is the clock read again
      after the answer, which dates the conversation's last message. */
  datatype SendOutcome = Sent(server: Option<Message>, sentAt: string) | SendFailed

  class MessagesPage {
    var conversations: seq<Conversation>
    var selected: Option<Conversation>
    var messages: seq<Message>
    var newMessage: string
    var sendingMessage: bool
    /** The application has unmounted after an error thrown while rendering. */
    var crashed: bool

    constructor (initial: seq<Conversation>)
      ensures conversations == initial && selected == None && messages == [] && newMessage == "" && !sendingMessage
      ensures !crashed
    {
      crashed := false;
      conversations := initial;
      selected := None;
      messages := [];
      newMessage := "";
      sendingMessage := false;
    }

    /** `startConversationWithUser(userId)`: an existing conversation with that
        participant is selected as it is; otherwise a new one goes first and is selected. */
    method StartConversationWithUser(userId: int, now: int)
      requires !crashed
      modifies this
      ensures !crashed
      ensures messages == old(messages) && newMessage == old(newMessage) && sendingMessage == old(sendingMessage)
      ensures FindByParticipant(old(conversations), userId).Some? ==>
        conversations == old(conversations) && selected == FindByParticipant(old(conversations), userId)
      ensures FindByParticipant(old(conversations), userId).None? ==>
        conversations == [NewConversation(now, userId)] + old(conversations) && selected == Some(NewConversation(now, userId))
      ensures selected.Some? && selected.value in conversations && selected.value.participantId == userId
    {
      var existing := FindByParticipant(conversations, userId);
      if existing.Some? {
        selected := existing;
        return;
      }
      var c := NewConversation(now, userId);
      conversations := [c] + conversations;
      selected := Some(c);
    }

    /** `sendMessage()` from start to end: blank text or no selected conversation
        does nothing; otherwise a temporary message is appended and the input
        cleared, then a success confirms it and sets the selected conversation's
        last message. A failure crashes the application: the rollback updater
        reads `tempMessage` outside its scope and throws while React renders, so
        the last list shown is the one holding the temporary message. An
        unmounted page handles no events. */
    method SendMessage(senderId: int, now: int, createdAt: string, outcome: SendOutcome) returns (temp: Option<Message>)
      requires !crashed
      modifies this
      ensures selected == old(selected)
      ensures IsBlank(old(newMessage)) || old(selected).None? ==>
        temp == None && messages == old(messages) && conversations == old(conversations)
        && newMessage == old(newMessage) && sendingMessage == old(sendingMessage) && !crashed
      ensures !(IsBlank(old(newMessage)) || old(selected).None?) ==>
        && temp == Some(Message(now, old(newMessage), senderId, createdAt, false, true))
        && newMessage == "" && !sendingMessage
        && (outcome.Sent? ==>
              !crashed
              && messages == ConfirmAll(old(messages) + [temp.value], now, outcome.server)
              && conversations == SetLastMessage(old(conversations), old(selected).value.id,
                                                 LastMessage(old(newMessage), outcome.sentAt, senderId)))
        && (outcome.SendFailed? ==>
              crashed
              && messages == old(messages) + [temp.value]
              && conversations == old(conversations))
    {
      if IsBlank(newMessage) || selected.None? {
        return None;
      }
      sendingMessage := true;
      var text := newMessage;
      var t := Message(now, text, senderId, createdAt, false, true);
      messages := messages + [t];
      newMessage := "";
      match outcome {
        case Sent(server, sentAt) =>
          messages := ConfirmAll(messages, t.id, server);
          conversations := SetLastMessage(conversations, selected.value.id, LastMessage(text, sentAt, senderId));
        case SendFailed =>
          // As written, `tempMessage` is not in scope in the `catch` block.
          crashed := ApplyRollback(messages, None).RenderCrash?;
      }
      sendingMessage := false;
      temp := Some(t);
    }
  }
}
