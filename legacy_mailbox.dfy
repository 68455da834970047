/** The oldest `Mailbox` (src/main/java/simpleserver/Mailbox.java): five-message queues
    with a registration check and no persistence. Its responses are built property
    by property on an empty JSON object. */
module LegacyMailboxes {
  import opened JavaLang
  import opened Messages
  import opened JsonResponse
  import opened MailboxQueues

  /** A response with a status and a message, added one after the other. */
  function StatusResponse(status: string, message: string): JsonObject {
    AddProperty(AddProperty(map[], "status", JString(status)), "message", JString(message))
  }

  /** The queues and the outcome of one send. */
  datatype SendResult = SendResult(queues: Table, response: JsonObject)

  /** `sendMessage(message)`: refused for a receiver without a queue, appended with
      room, refused without room. */
  function Send(queues: Table, m: Message): SendResult {
    if !Registered(queues, m.receiverId) then SendResult(queues, StatusResponse(Error, "Client is not registered"))
    else if HasRoom(queues, m.receiverId.value) then
      SendResult(Enqueue(queues, m.receiverId.value, m), StatusResponse(Success, "Message sent successfully"))
    else SendResult(queues, StatusResponse(Error, "Client Mailbox is full"))
  }

  /** `openMessage(client)`: the oldest message popped into `messageObject`; an empty
      queue throws `NoSuchElementException` and a client without a queue is a
      `NullPointerException`. */
  function Open(queues: Table, username: string): (Table, Outcome<JsonObject>) {
    if username !in queues then (queues, Threw(NullPointer))
    else if queues[username] == [] then (queues, Threw(NoSuchElement))
    else (queues[username := queues[username][1..]], Returned(AddProperty(map[], "messageObject", JMessage(queues[username][0]))))
  }

  /** Every send answers with exactly a status and a message, and the status is
      "success" exactly when the message was queued. */
  lemma {:induction false} SendAlwaysHasStatusAndMessage(queues: Table, m: Message)
    ensures Send(queues, m).response.Keys == {"status", "message"}
    ensures Status(Send(queues, m).response) == Some(Success) <==>
      Registered(queues, m.receiverId) && HasRoom(queues, m.receiverId.value)
    ensures Status(Send(queues, m).response) != Some(Success) ==> Send(queues, m).queues == queues
  {
  }

  /** The three answers of a send and the state each leaves. */
  lemma {:induction false} SendCases(queues: Table, m: Message)
    ensures !Registered(queues, m.receiverId) ==>
      Send(queues, m) == SendResult(queues, StatusResponse(Error, "Client is not registered"))
    ensures Registered(queues, m.receiverId) && HasRoom(queues, m.receiverId.value) ==>
      Send(queues, m).queues[m.receiverId.value] == queues[m.receiverId.value] + [m] &&
      MessageText(Send(queues, m).response) == Some("Message sent successfully")
    ensures Registered(queues, m.receiverId) && !HasRoom(queues, m.receiverId.value) ==>
      Send(queues, m) == SendResult(queues, StatusResponse(Error, "Client Mailbox is full"))
  {
  }

  /** A send keeps the bound and leaves other users' queues alone. */
  lemma {:induction false} SendKeepsBound(queues: Table, m: Message)
    requires Bounded(queues)
    ensures Bounded(Send(queues, m).queues)
    ensures forall v :: v in queues && Some(v) != m.receiverId ==> v in Send(queues, m).queues && Send(queues, m).queues[v] == queues[v]
  {
    if Registered(queues, m.receiverId) {
      OperationsKeepBound(queues, m.receiverId.value, m);
      EnqueueAppendsAtTail(queues, m.receiverId.value, m);
    }
  }

  /** Opening pops the oldest message into `messageObject` and fails on an empty
      queue. */
  lemma {:induction false} OpenPopsOldest(queues: Table, username: string)
    requires username in queues
    ensures queues[username] != [] ==>
      Open(queues, username).0[username] == queues[username][1..] &&
      Open(queues, username).1 == Returned(map["messageObject" := JMessage(queues[username][0])])
    ensures queues[username] == [] ==> Open(queues, username) == (queues, Threw(NoSuchElement))
  {
  }

  class LegacyMailbox {
    var unreadMessages: Table

    constructor ()
      ensures unreadMessages == map[]
    {
      unreadMessages := map[];
    }

    /** `addClient(client)`. */
    method AddClient(username: string)
      modifies this
      ensures unreadMessages == AddRecipient(old(unreadMessages), username)
    {
      unreadMessages := unreadMessages[username := []];
    }

    /** `sendMessage(message)`. */
    method SendMessage(message: Message) returns (response: JsonObject)
      modifies this
      ensures unreadMessages == Send(old(unreadMessages), message).queues
      ensures response == Send(old(unreadMessages), message).response
    {
      response := map[];
      if !Registered(unreadMessages, message.receiverId) {
        response := AddProperty(response, "status", JString(Error));
        response := AddProperty(response, "message", JString("Client is not registered"));
        return;
      }
      var receiver := message.receiverId.value;
      if |unreadMessages[receiver]| < Capacity {
        unreadMessages := unreadMessages[receiver := unreadMessages[receiver] + [message]];
        response := AddProperty(response, "status", JString(Success));
        response := AddProperty(response, "message", JString("Message sent successfully"));
      } else {
        response := AddProperty(response, "status", JString(Error));
        response := AddProperty(response, "message", JString("Client Mailbox is full"));
      }
    }

    /** `removeClient(client)`. */
    method RemoveClient(username: string)
      modifies this
      ensures unreadMessages == RemoveRecipient(old(unreadMessages), username)
    {
      unreadMessages := unreadMessages - {username};
    }

    /** `openMessage(client)`. */
    method OpenMessage(username: string) returns (response: Outcome<JsonObject>)
      modifies this
      ensures (unreadMessages, response) == Open(old(unreadMessages), username)
    {
      if username !in unreadMessages {
        return Threw(NullPointer);
      }
      var queue := unreadMessages[username];
      if queue == [] {
        return Threw(NoSuchElement);
      }
      unreadMessages := unreadMessages[username := queue[1..]];
      response := Returned(AddProperty(map[], "messageObject", JMessage(queue[0])));
    }
  }
}
