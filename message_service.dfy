/** `MessageService` (src/main/java/simpleserver/service/MessageService.java): the
    current mailbox. Each logged-in user has a queue of at most five unread
    messages; a message accepted into a queue is also handed to the message
    repository to be persisted. */
module MessageServices {
  import opened JavaLang
  import opened Messages
  import opened JsonResponse
  import opened MailboxQueues
  import opened MessageRepositories

  /** The queues, the repository's save buffer and the outcome of one send. */
  datatype SendResult = SendResult(queues: Table, saved: seq<Message>, response: Outcome<JsonObject>)

  /** `sendMessage(message)`. The receiver's queue is looked up without an existence
      check, so a receiver without a queue is a `NullPointerException`. With room,
      the message is appended and then saved; a full save buffer makes the save throw
      `IllegalStateException` after the append. Without room nothing changes. */
  function Send(queues: Table, saved: seq<Message>, m: Message): SendResult {
    if !Registered(queues, m.receiverId) then SendResult(queues, saved, Threw(NullPointer))
    else
      var u := m.receiverId.value;
      if HasRoom(queues, u) then
        if |saved| < SaveCapacity then
          SendResult(Enqueue(queues, u, m), saved + [m], Returned(ServerResponse(Success, "Message sent successfully")))
        else
          SendResult(Enqueue(queues, u, m), saved, Threw(IllegalState))
      else
        SendResult(queues, saved, Returned(ServerResponse(Error, "Client Mailbox is full")))
  }

  /** The queues and the outcome of one open. */
  datatype OpenResult = OpenResult(queues: Table, response: Outcome<JsonObject>)

  /** `openMessage(client)`: pops the oldest message of the client's queue into a
      "New message" response; an empty queue gives "No new messages"; a client
      without a queue is a `NullPointerException`. */
  function Open(queues: Table, username: string): OpenResult {
    if username !in queues then OpenResult(queues, Threw(NullPointer))
    else
      var (after, popped) := Dequeue(queues, username);
      match popped
      case None => OpenResult(queues, Returned(ServerResponse(Success, "No new messages")))
      case Some(m) =>
        OpenResult(after, Returned(AddProperty(ServerResponse(Success, "New message"), "messageObject", JMessage(m))))
  }

  /** A send to a receiver whose queue has room appends the message at the tail,
      hands it to the repository exactly once, and reports success. */
  lemma {:induction false} SendWithRoom(queues: Table, saved: seq<Message>, m: Message)
    requires Registered(queues, m.receiverId) && HasRoom(queues, m.receiverId.value)
    requires |saved| < SaveCapacity
    ensures Send(queues, saved, m).queues[m.receiverId.value] == queues[m.receiverId.value] + [m]
    ensures Send(queues, saved, m).saved == saved + [m]
    ensures Send(queues, saved, m).response.Returned?
    ensures Status(Send(queues, saved, m).response.value) == Some(Success)
    ensures MessageText(Send(queues, saved, m).response.value) == Some("Message sent successfully")
  {
    ServerResponseDeterminedByFields(Success, "Message sent successfully", Success, "Message sent successfully");
  }

  /** A send to a full queue changes neither the queue nor the save buffer and
      reports "Client Mailbox is full". */
  lemma {:induction false} SendToFullQueue(queues: Table, saved: seq<Message>, m: Message)
    requires Registered(queues, m.receiverId) && !HasRoom(queues, m.receiverId.value)
    ensures Send(queues, saved, m).queues == queues && Send(queues, saved, m).saved == saved
    ensures Send(queues, saved, m).response == Returned(ServerResponse(Error, "Client Mailbox is full"))
    ensures Status(Send(queues, saved, m).response.value) == Some(Error)
  {
    ServerResponseDeterminedByFields(Error, "Client Mailbox is full", Error, "Client Mailbox is full");
  }

  /** A send never lets a queue grow past five messages nor the save buffer past its
      capacity, and it touches no queue but the receiver's. */
  lemma {:induction false} SendKeepsBoundsAndOtherQueues(queues: Table, saved: seq<Message>, m: Message)
    requires Bounded(queues) && |saved| <= SaveCapacity
    ensures Bounded(Send(queues, saved, m).queues)
    ensures |Send(queues, saved, m).saved| <= SaveCapacity
    ensures Send(queues, saved, m).queues.Keys == queues.Keys
    ensures forall v :: v in queues && Some(v) != m.receiverId ==> Send(queues, saved, m).queues[v] == queues[v]
  {
    if Registered(queues, m.receiverId) {
      OperationsKeepBound(queues, m.receiverId.value, m);
      EnqueueAppendsAtTail(queues, m.receiverId.value, m);
    }
  }

  /** Only a send to a receiver that has a queue can succeed; any other send
      throws and changes nothing. */
  lemma {:induction false} SendNeedsReceiverQueue(queues: Table, saved: seq<Message>, m: Message)
    ensures !Registered(queues, m.receiverId) <==>
      Send(queues, saved, m) == SendResult(queues, saved, Threw(NullPointer))
  {
  }

  /** Opening a non-empty queue removes and returns its oldest message in a
      "New message" response that carries it as `messageObject`. */
  lemma {:induction false} OpenTakesOldest(queues: Table, username: string)
    requires username in queues && queues[username] != []
    ensures Open(queues, username).queues[username] == queues[username][1..]
    ensures var r := Open(queues, username).response;
      r.Returned? && Status(r.value) == Some(Success) && MessageText(r.value) == Some("New message") &&
      "messageObject" in r.value && r.value["messageObject"] == JMessage(queues[username][0])
  {
  }

  /** Opening an empty queue changes nothing and answers "No new messages" without
      a `messageObject`. */
  lemma {:induction false} OpenEmptyQueue(queues: Table, username: string)
    requires username in queues && queues[username] == []
    ensures Open(queues, username).queues == queues
    ensures var r := Open(queues, username).response;
      r.Returned? && MessageText(r.value) == Some("No new messages") && "messageObject" !in r.value
  {
  }

  /** An open touches no queue but the opener's and keeps the bound. */
  lemma {:induction false} OpenKeepsOtherQueues(queues: Table, username: string)
    requires Bounded(queues)
    ensures Bounded(Open(queues, username).queues)
    ensures Open(queues, username).queues.Keys == queues.Keys
    ensures forall v :: v in queues && v != username ==> Open(queues, username).queues[v] == queues[v]
  {
    if username in queues {
      OperationsKeepBound(queues, username, Message(None, None, None));
      DequeueTakesHead(queues, username);
    }
  }

  /** A message sent to a user with an empty queue is the next one that user
      opens, and the queue is empty again afterwards. */
  lemma {:induction false} SentMessageIsOpenedNext(queues: Table, saved: seq<Message>, m: Message)
    requires Registered(queues, m.receiverId) && queues[m.receiverId.value] == []
    requires |saved| < SaveCapacity
    ensures var after := Send(queues, saved, m).queues;
      Open(after, m.receiverId.value).response.value["messageObject"] == JMessage(m) &&
      Open(after, m.receiverId.value).queues[m.receiverId.value] == []
  {
    SendWithRoom(queues, saved, m);
    OpenTakesOldest(Send(queues, saved, m).queues, m.receiverId.value);
  }

  class MessageService {
    var unreadMessages: Table
    const messageRepository: MessageRepository

    constructor (messageRepository: MessageRepository)
      ensures unreadMessages == map[] && this.messageRepository == messageRepository
    {
      unreadMessages := map[];
      this.messageRepository := messageRepository;
    }

    /** `addClient(client)`: an empty queue for the user, replacing any queue it
        had. */
    method AddClient(username: string)
      modifies this
      ensures unreadMessages == AddRecipient(old(unreadMessages), username)
      ensures unreadMessages[username] == []
    {
      unreadMessages := unreadMessages[username := []];
    }

    /** `sendMessage(message)`. */
    method SendMessage(message: Message) returns (response: Outcome<JsonObject>)
      requires messageRepository.Valid()
      modifies this, messageRepository
      ensures messageRepository.Valid()
      ensures var s := Send(old(unreadMessages), old(messageRepository.messagesToSave), message);
        unreadMessages == s.queues && messageRepository.messagesToSave == s.saved && response == s.response
    {
      if !Registered(unreadMessages, message.receiverId) {
        response := Threw(NullPointer);
        return;
      }
      var receiver := message.receiverId.value;
      if |unreadMessages[receiver]| < Capacity {
        unreadMessages := unreadMessages[receiver := unreadMessages[receiver] + [message]];
        var saved := messageRepository.SaveMessage(message);
        if saved.Threw? {
          response := Threw(saved.error);
        } else {
          response := Returned(ServerResponse(Success, "Message sent successfully"));
        }
      } else {
        response := Returned(ServerResponse(Error, "Client Mailbox is full"));
      }
    }

    /** `openMessage(client)`. */
    method OpenMessage(username: string) returns (response: Outcome<JsonObject>)
      modifies this
      ensures unreadMessages == Open(old(unreadMessages), username).queues
      ensures response == Open(old(unreadMessages), username).response
    {
      if username !in unreadMessages {
        response := Threw(NullPointer);
        return;
      }
      var queue := unreadMessages[username];
      if queue == [] {
        response := Returned(ServerResponse(Success, "No new messages"));
      } else {
        unreadMessages := unreadMessages[username := queue[1..]];
        response := Returned(AddProperty(ServerResponse(Success, "New message"), "messageObject", JMessage(queue[0])));
      }
    }
  }
}
