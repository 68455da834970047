/** `Mailbox` of the older socket server (src/main/java/simpleserver/server/Mailbox.java):
    the same five-message queues as the current message service, with an explicit
    registration check, a removal operation, and a bounded buffer of accepted
    messages for a saver thread. */
module ServerMailboxes {
  import opened JavaLang
  import opened Messages
  import opened JsonResponse
  import opened MailboxQueues

  /** The `ArrayBlockingQueue` capacity of `messagesToSave`. */
  const SaveBufferCapacity: nat := 25

  /** The queues, the save buffer and the outcome of one send. */
  datatype SendResult = SendResult(queues: Table, toSave: seq<Message>, response: Outcome<JsonObject>)

  /** `sendMessage(message)`: a receiver without a queue is refused; with room the
      message is appended and then added to the save buffer, whose `add` throws
      `IllegalStateException` when the buffer is full; without room nothing
      changes. */
  function Send(queues: Table, toSave: seq<Message>, m: Message): SendResult {
    if !Registered(queues, m.receiverId) then
      SendResult(queues, toSave, Returned(ServerResponse(Error, "Client is not registered in the mailbox")))
    else
      var u := m.receiverId.value;
      if HasRoom(queues, u) then
        if |toSave| < SaveBufferCapacity then
          SendResult(Enqueue(queues, u, m), toSave + [m], Returned(ServerResponse(Success, "Message sent successfully")))
        else
          SendResult(Enqueue(queues, u, m), toSave, Threw(IllegalState))
      else
        SendResult(queues, toSave, Returned(ServerResponse(Error, "Client Mailbox is full")))
  }

  /** The queues and the outcome of one open. */
  datatype OpenResult = OpenResult(queues: Table, response: Outcome<JsonObject>)

  /** `openMessage(client)`: the oldest message, popped into a response holding only
      `messageObject`. `pop` on an empty queue throws `NoSuchElementException`, and a
      client without a queue is a `NullPointerException`. */
  function Open(queues: Table, username: string): OpenResult {
    if username !in queues then OpenResult(queues, Threw(NullPointer))
    else
      var (after, popped) := Dequeue(queues, username);
      match popped
      case None => OpenResult(queues, Threw(NoSuchElement))
      case Some(m) => OpenResult(after, Returned(map["messageObject" := JMessage(m)]))
  }

  /** A send to a receiver without a queue is refused with nothing changed. */
  lemma {:induction false} SendToUnregistered(queues: Table, toSave: seq<Message>, m: Message)
    requires !Registered(queues, m.receiverId)
    ensures Send(queues, toSave, m) ==
      SendResult(queues, toSave, Returned(ServerResponse(Error, "Client is not registered in the mailbox")))
  {
  }

  /** With room in the receiver's queue and in the save buffer, the message is
      appended to both and the send reports success. */
  lemma {:induction false} SendWithRoom(queues: Table, toSave: seq<Message>, m: Message)
    requires Registered(queues, m.receiverId) && HasRoom(queues, m.receiverId.value)
    requires |toSave| < SaveBufferCapacity
    ensures Send(queues, toSave, m).queues[m.receiverId.value] == queues[m.receiverId.value] + [m]
    ensures Send(queues, toSave, m).toSave == toSave + [m]
    ensures Send(queues, toSave, m).response == Returned(ServerResponse(Success, "Message sent successfully"))
  {
  }

  /** A full queue refuses the message; neither the queue nor the save buffer
      changes. */
  lemma {:induction false} SendToFullQueue(queues: Table, toSave: seq<Message>, m: Message)
    requires Registered(queues, m.receiverId) && !HasRoom(queues, m.receiverId.value)
    ensures Send(queues, toSave, m) == SendResult(queues, toSave, Returned(ServerResponse(Error, "Client Mailbox is full")))
  {
  }

  /** Sends keep every queue within five messages and the save buffer within its
      capacity, and leave the other users' queues alone. */
  lemma {:induction false} SendKeepsBounds(queues: Table, toSave: seq<Message>, m: Message)
    requires Bounded(queues) && |toSave| <= SaveBufferCapacity
    ensures Bounded(Send(queues, toSave, m).queues) && |Send(queues, toSave, m).toSave| <= SaveBufferCapacity
    ensures forall v :: v in queues && Some(v) != m.receiverId ==> v in Send(queues, toSave, m).queues && Send(queues, toSave, m).queues[v] == queues[v]
  {
    if Registered(queues, m.receiverId) {
      OperationsKeepBound(queues, m.receiverId.value, m);
      EnqueueAppendsAtTail(queues, m.receiverId.value, m);
    }
  }

  /** After a removal, the user's unread messages are gone and a send to the user is
      refused as not registered. */
  lemma {:induction false} RemovedUserIsUnregistered(queues: Table, toSave: seq<Message>, u: string, m: Message)
    requires m.receiverId == Some(u)
    ensures u !in RemoveRecipient(queues, u)
    ensures Send(RemoveRecipient(queues, u), toSave, m).response ==
      Returned(ServerResponse(Error, "Client is not registered in the mailbox"))
  {
    RemovedIsUnregistered(queues, u);
  }

  /** Opening a non-empty queue pops its oldest message into a response that holds
      `messageObject` and nothing else (no status); an empty queue throws
      `NoSuchElementException` and changes nothing. */
  lemma {:induction false} OpenPopsOldest(queues: Table, username: string)
    requires username in queues
    ensures queues[username] != [] ==>
      Open(queues, username).queues[username] == queues[username][1..] &&
      Open(queues, username).response == Returned(map["messageObject" := JMessage(queues[username][0])]) &&
      Open(queues, username).response.value.Keys == {"messageObject"}
    ensures queues[username] == [] ==> Open(queues, username) == OpenResult(queues, Threw(NoSuchElement))
  {
  }

  class ServerMailbox {
    var unreadMessages: Table
    var messagesToSave: seq<Message>

    predicate Valid()
      reads this
    {
      |messagesToSave| <= SaveBufferCapacity
    }

    constructor ()
      ensures Valid() && unreadMessages == map[] && messagesToSave == []
    {
      unreadMessages := map[];
      messagesToSave := [];
    }

    /** `addClient(client)`. */
    method AddClient(username: string)
      modifies this
      ensures unreadMessages == AddRecipient(old(unreadMessages), username)
      ensures messagesToSave == old(messagesToSave)
    {
      unreadMessages := unreadMessages[username := []];
    }

    /** `sendMessage(message)`. */
    method SendMessage(message: Message) returns (response: Outcome<JsonObject>)
      requires Valid()
      modifies this
      ensures Valid()
      ensures var s := Send(old(unreadMessages), old(messagesToSave), message);
        unreadMessages == s.queues && messagesToSave == s.toSave && response == s.response
    {
      if !Registered(unreadMessages, message.receiverId) {
        return Returned(ServerResponse(Error, "Client is not registered in the mailbox"));
      }
      var receiver := message.receiverId.value;
      if |unreadMessages[receiver]| < Capacity {
        unreadMessages := unreadMessages[receiver := unreadMessages[receiver] + [message]];
        if |messagesToSave| < SaveBufferCapacity {
          messagesToSave := messagesToSave + [message];
        } else {
          return Threw(IllegalState);
        }
        response := Returned(ServerResponse(Success, "Message sent successfully"));
      } else {
        response := Returned(ServerResponse(Error, "Client Mailbox is full"));
      }
    }

    /** `removeClient(client)`. */
    method RemoveClient(username: string)
      modifies this
      ensures unreadMessages == RemoveRecipient(old(unreadMessages), username)
      ensures messagesToSave == old(messagesToSave)
    {
      unreadMessages := unreadMessages - {username};
    }

    /** `openMessage(client)`. */
    method OpenMessage(username: string) returns (response: Outcome<JsonObject>)
      modifies this
      ensures unreadMessages == Open(old(unreadMessages), username).queues
      ensures response == Open(old(unreadMessages), username).response
      ensures messagesToSave == old(messagesToSave)
    {
      if username !in unreadMessages {
        return Threw(NullPointer);
      }
      var queue := unreadMessages[username];
      if queue == [] {
        return Threw(NoSuchElement);
      }
      unreadMessages := unreadMessages[username := queue[1..]];
      response := Returned(map["messageObject" := JMessage(queue[0])]);
    }

    /** `messagesToSave.take()` in the saver thread, on a non-empty buffer: the oldest
        accepted message leaves first. */
    method Take() returns (m: Message)
      requires Valid() && messagesToSave != []
      modifies this
      ensures Valid()
      ensures m == old(messagesToSave[0]) && messagesToSave == old(messagesToSave[1..])
      ensures unreadMessages == old(unreadMessages)
    {
      m := messagesToSave[0];
      messagesToSave := messagesToSave[1..];
    }
  }
}
