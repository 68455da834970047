# simpleserver in Dafny

A model of the chat server `simpleserver` and its console clients. Clients connect
over a socket and send one JSON request per line. The server keeps a directory of
connected clients. It logs users in and registers them against a list of stored
credentials. It answers a few login-free commands from a fixed table ("ping",
"uptime", "info", "help", "open", "stop"). It also passes direct messages between
logged-in users through a mailbox of at most five unread messages per user.
Accepted messages are buffered for a background saver that appends them to a JSON
array in a file. The saver's bracket fix-up at startup and at shutdown is modelled
as edits on the file's bytes.

Three generations of the code live side by side, and all three are modelled:

- the current server: `ClientRequestHandler` over `UserService`, `MessageService`,
  `UserRepository` and `MessageRepository`;
- the older `server/SimpleServer` with its `ClientHandler`, `server/Mailbox` and
  `ServerRequests`;
- the oldest `simpleserver/Mailbox`, and the two console clients.

Layout, one module per source file, plus three shared ones:

- `java_lang.dfy` (`JavaLang`): the Java library behaviour the code relies on.
  - Null as `Option`, and exceptions as `Outcome = Returned | Threw`.
  - `Objects.equals`, `StringUtils.isBlank`, `String.split(" ")` (trailing empty
    tokens dropped), `String.join`, `toLowerCase`, `trim` and `contains`.
- `envelope.dfy` (`Envelope`): a request as the record of properties the server
  reads.
  - Each property is absent, unreadable (reading it throws) or present.
  - Also the server's per-connection record of the client (`Session`) and channels.
  - Also what a handler does for one request (`Reply`): write a response, or end
    the process.
- `mailbox_queues.dfy` (`MailboxQueues`): the username → queue table that all three
  mailbox generations keep, with its capacity of five.
- The remaining files follow the source files named in the table below.

Stateful Java classes are Dafny classes whose fields the methods update. Each
method's `ensures` ties its new state and its result to a pure function of the old
state. The properties the source promises are proved about those functions, as
lemmas.

Three facts of the code the model follows:

- Disconnecting in the current server does not remove the user's mailbox queue.
  The removal in `MessageService` is commented out, and `disconnectClient` only
  edits the directory.
- `userService.userIsConnected` is called by `ClientRequestHandler` but is not
  defined in `UserService`. It is modelled as "the id is a username in the
  directory".
- `JsonResponse.userResponse` (used by the current client) and the
  `StatusEnum`-taking `serverResponse` (used by `ServerRequests`) are not in the
  `JsonResponse` file. They are modelled as building the user descriptor, and as
  the two-field response with the statuses "success" and "error".

## Model

| member | source | states |
|---|---|---|
| JsonResponse.ServerResponse | src/main/java/simpleserver/util/JsonResponse.java:7-14 | the response holds exactly the properties "status" and "message", with the given texts |
| JsonResponse.AddProperty | src/main/java/simpleserver/util/JsonResponse.java:10-11 | `addProperty` sets one key to the value and keeps every other key and value |
| JsonResponse.ServerResponseDeterminedByFields | src/main/java/simpleserver/util/JsonResponse.java:7-14 | the status and message read back are the ones given, and two responses are equal iff both fields are |
| JavaLang.ObjectsEqualsIsEquality | src/main/java/simpleserver/Message.java:12 | `Objects.equals` on nullable strings is equality, nulls included |
| JavaLang.SplitOfJoin | src/main/java/simpleserver/client/SimpleClient.java:66-76 | splitting space-free words joined by single spaces gives the words back, unless the last of several is empty |
| JavaLang.SplitOfSpaces | src/main/java/simpleserver/client/SimpleClient.java:66-72 | `split(" ")` of a non-empty line of spaces is the empty array |
| Messages.EqualsIsValueEquality | src/main/java/simpleserver/Message.java:8-13 | two messages are equal iff receiver, sender and body are all (null-safely) equal |
| Messages.EqualsIsAnEquivalence | src/main/java/simpleserver/Message.java:8-13 | equality is reflexive and symmetric, and false for null and for other classes |
| Messages.WrapInt | src/main/java/simpleserver/Message.java:15-18 | Java `int` arithmetic: the result is in the 32-bit range and congruent to the input modulo 2^32 |
| Messages.HashCodeAgreesWithEquals | src/main/java/simpleserver/Message.java:15-18 | equal messages have equal `Objects.hash` codes |
| LoginResults.LoginResultTexts | src/main/java/simpleserver/service/LoginResult.java:3-12 | the texts are "login success", "user not found" and "user already logged in" |
| LoginResults.ToStringInjective | src/main/java/simpleserver/service/LoginResult.java:10-12 | distinct outcomes have distinct texts |
| LoginResults.ToStringIsLowerWords | src/main/java/simpleserver/service/LoginResult.java:10-12 | no text holds '_' or an upper-case letter |
| Envelope.Read | src/main/java/simpleserver/server/ClientRequestHandler.java:58 | reading a property succeeds iff it is present, with its value; an absent one throws `NullPointerException` |
| MailboxQueues.Enqueue | src/main/java/simpleserver/service/MessageService.java:42-43 | the guarded `add` keeps the set of queue owners |
| MailboxQueues.Dequeue | src/main/java/simpleserver/service/MessageService.java:62 | `pop` keeps the set of queue owners |
| MailboxQueues.OperationsKeepBound | src/main/java/simpleserver/server/Mailbox.java:35-74 | add-recipient, enqueue, dequeue and remove keep every queue within five messages |
| MailboxQueues.EnqueueAppendsAtTail | src/main/java/simpleserver/service/MessageService.java:42-50 | with room the message goes to the tail of the receiver's queue; without room nothing changes; other queues are untouched |
| MailboxQueues.DequeueTakesHead | src/main/java/simpleserver/service/MessageService.java:62 | an empty queue yields nothing; otherwise the head is returned and the rest keeps its order; other queues are untouched |
| MailboxQueues.RemovedIsUnregistered | src/main/java/simpleserver/server/Mailbox.java:63-65 | after removal the user has no queue and the other queues are unchanged |
| MailboxQueues.EnqueueAll | src/main/java/simpleserver/service/MessageService.java:35-51 | a run of sends keeps the set of queue owners |
| MailboxQueues.DequeueAll | src/main/java/simpleserver/service/MessageService.java:58-71 | a run of opens keeps the set of queue owners, opens at most the requested number and at most what was queued, and shortens the queue by exactly what it opened |
| MailboxQueues.EnqueueAllAppends | src/main/java/simpleserver/service/MessageService.java:42-43 | within capacity, successive sends land at the tail in order |
| MailboxQueues.DequeueAllDrains | src/main/java/simpleserver/service/MessageService.java:62 | opening as many messages as queued returns them oldest first and empties the queue |
| MailboxQueues.FifoDelivery | src/main/java/simpleserver/service/MessageService.java:35-71 | up to five messages sent to an empty queue are opened in the order they were sent |
| MailboxQueues.SixthSendRejected | src/main/java/simpleserver/service/MessageService.java:42-50 | once five messages are pending, a sixth is rejected and the queue is unchanged |
| MessageServices.SendWithRoom | src/main/java/simpleserver/service/MessageService.java:42-46 | with room the message is appended to the queue and the save buffer, and the answer is success "Message sent successfully" |
| MessageServices.SendToFullQueue | src/main/java/simpleserver/service/MessageService.java:47-50 | a full queue changes nothing and the answer is error "Client Mailbox is full" |
| MessageServices.SendKeepsBoundsAndOtherQueues | src/main/java/simpleserver/service/MessageService.java:35-51 | a send keeps queues within five and the save buffer within fifty, adds no queue, and touches no other queue |
| MessageServices.SendNeedsReceiverQueue | src/main/java/simpleserver/service/MessageService.java:36-42 | the send throws `NullPointerException` with nothing changed iff the receiver has no queue |
| MessageServices.OpenTakesOldest | src/main/java/simpleserver/service/MessageService.java:61-65 | opening a non-empty queue pops its oldest message into a "New message" success response as `messageObject` |
| MessageServices.OpenEmptyQueue | src/main/java/simpleserver/service/MessageService.java:66-69 | opening an empty queue changes nothing and answers "No new messages" without `messageObject` |
| MessageServices.OpenKeepsOtherQueues | src/main/java/simpleserver/service/MessageService.java:58-71 | an open keeps the bound and touches only the opener's queue |
| MessageServices.SentMessageIsOpenedNext | src/main/java/simpleserver/service/MessageService.java:35-71 | a message sent to an empty queue is the next one opened, and the queue is empty again afterwards |
| MessageServices.MessageService.constructor | src/main/java/simpleserver/service/MessageService.java:24-27 | the service starts with no queues and the given repository |
| MessageServices.MessageService.AddClient | src/main/java/simpleserver/service/MessageService.java:29-32 | the user gets a fresh empty queue, replacing any existing one |
| MessageServices.MessageService.SendMessage | src/main/java/simpleserver/service/MessageService.java:35-51 | queues, save buffer and answer are those of the send function, and the buffer stays bounded |
| MessageServices.MessageService.OpenMessage | src/main/java/simpleserver/service/MessageService.java:58-71 | queues and answer are those of the open function |
| UserRepositories.LoadFallbacks | src/main/java/simpleserver/repository/UserRepository.java:56-83 | a null or empty path, a missing file, a read error or an empty file each give an empty list; past those, the result is a null list iff Gson decodes the text to null, it throws `JsonSyntaxException` iff the text is malformed, and otherwise it is the decoded list |
| UserRepositories.NullTextGivesNullList | src/main/java/simpleserver/repository/UserRepository.java:69-78 | a non-empty file of only whitespace, or the text `null`, yields a null list rather than an empty one |
| UserRepositories.UsernameTaken | src/main/java/simpleserver/service/UserService.java:59-64 | a username is taken iff some stored credential has it |
| UserRepositories.UserRepository.constructor | src/main/java/simpleserver/repository/UserRepository.java:24-26 | the list starts as what the file yields, for a file that yields a list |
| UserRepositories.UserRepository.AddUser | src/main/java/simpleserver/repository/UserRepository.java:35-37 | the credential is appended with no uniqueness check, the earlier ones are kept, and it is found afterwards |
| UserRepositories.AppendKeepsCredentials | src/main/java/simpleserver/repository/UserRepository.java:35-37 | after an append a credential or username is found iff it was found before or is the new one |
| UserServices.VerifyUserCases | src/main/java/simpleserver/service/UserService.java:30-33 | a client passes iff its username or its password is non-blank (null counts as blank) |
| UserServices.LoginNotFound | src/main/java/simpleserver/service/UserService.java:35-54 | USER_NOT_FOUND iff no stored credential matches both fields, and then nothing changes |
| UserServices.LoginAlreadyConnected | src/main/java/simpleserver/service/UserService.java:39-40 | USER_ALREADY_LOGGED_IN iff the credentials match and the username is already connected; a failed login changes nothing |
| UserServices.LoginSucceeds | src/main/java/simpleserver/service/UserService.java:42-50 | LOGIN_SUCCESS iff the credentials match and the username is not connected; the channel then maps to it and it has an empty queue |
| UserServices.LoginKeepsOneChannelPerUser | src/main/java/simpleserver/service/UserService.java:39-47 | a login never connects one username on two channels |
| UserServices.UpdateMayDuplicateUser | src/main/java/simpleserver/service/UserService.java:75-79 | `updateClient` has no such guard: it can leave one username on two channels |
| UserServices.RegisterAddIfAbsent | src/main/java/simpleserver/service/UserService.java:56-69 | registration succeeds iff the username is not taken, appending exactly the new credential; otherwise nothing changes |
| UserServices.DisconnectRemovesOnlyChannel | src/main/java/simpleserver/service/UserService.java:71-73 | the channel's entry is removed, every other one is kept, and disconnecting twice is the same as once |
| UserServices.UpdateNeverAdds | src/main/java/simpleserver/service/UserService.java:75-79 | an update adds no channel and renames only a channel already present |
| UserServices.UserService.constructor | src/main/java/simpleserver/service/UserService.java:23-28 | the service starts with an empty directory and the given collaborators |
| UserServices.UserService.LoginUser | src/main/java/simpleserver/service/UserService.java:35-54 | directory, queues and result are those of the login function |
| UserServices.UserService.RegisterNewUser | src/main/java/simpleserver/service/UserService.java:56-69 | the scan over the stored credentials gives the stored list and result of the registration function |
| UserServices.UserService.DisconnectClient | src/main/java/simpleserver/service/UserService.java:71-73 | the directory becomes that of the disconnect function |
| UserServices.UserService.UpdateClient | src/main/java/simpleserver/service/UserService.java:75-79 | the directory becomes that of the update function |
| MessageRepositories.StartupFormatting | src/main/java/simpleserver/repository/MessageRepository.java:54-70 | the in-place edits through the file leave the content the startup function gives |
| MessageRepositories.ShutdownFormatting | src/main/java/simpleserver/repository/MessageRepository.java:72-88 | the in-place edits through the file leave the content the shutdown function gives |
| MessageRepositories.StartupCases | src/main/java/simpleserver/repository/MessageRepository.java:57-64 | content not ending in ']' is kept; a longer closed array gets ',' for its ']'; "[]" becomes "[" |
| MessageRepositories.ShutdownChangesOnlyTrailingComma | src/main/java/simpleserver/repository/MessageRepository.java:75-82 | shutdown keeps the length and all but the last byte, turning a trailing ',' into ']' and changing nothing else |
| MessageRepositories.ShutdownUndoesStartup | src/main/java/simpleserver/repository/MessageRepository.java:54-88 | startup then shutdown with nothing saved restores a closed array of more than two bytes |
| MessageRepositories.Records | src/main/java/simpleserver/repository/MessageRepository.java:41-42 | the records the saver appends end in ',' whenever there is one |
| MessageRepositories.ShutdownClosesArray | src/main/java/simpleserver/repository/MessageRepository.java:41-42 | after any non-empty run of saved records, shutdown replaces the last ',' with ']' |
| MessageRepositories.SessionKeepsArrayClosed | src/main/java/simpleserver/repository/MessageRepository.java:41-88 | a whole run (startup, saves, shutdown) on a closed array leaves a closed array holding the old content and the new records |
| MessageRepositories.MessageRepository.constructor | src/main/java/simpleserver/repository/MessageRepository.java:20-24 | the save buffer starts empty |
| MessageRepositories.MessageRepository.SaveMessage | src/main/java/simpleserver/repository/MessageRepository.java:27-30 | below fifty messages the message is added at the tail; a full buffer throws `IllegalStateException` and is unchanged |
| MessageRepositories.MessageRepository.Take | src/main/java/simpleserver/repository/MessageRepository.java:41 | the saver takes the oldest buffered message first |
| RequestHandling.MessageFromOfflineSender | src/main/java/simpleserver/server/ClientRequestHandler.java:114-116 | a sender not in the directory is refused with "Client error - client is not logged in" |
| RequestHandling.ForgedSenderRejected | src/main/java/simpleserver/server/ClientRequestHandler.java:118-120 | a connected sender other than the client is refused with "Client error - username doesnt equal sender ID" and no queue changes |
| RequestHandling.MessageToOfflineReceiver | src/main/java/simpleserver/server/ClientRequestHandler.java:123-125 | a receiver not in the directory is refused with "Recipient is not logged in or registered" |
| RequestHandling.MessageSentOnlyAfterChecks | src/main/java/simpleserver/server/ClientRequestHandler.java:109-134 | the mailbox send happens iff all three checks pass, its answer is passed on, and the client and directory never change |
| RequestHandling.LoginNeedsBothFields | src/main/java/simpleserver/server/ClientRequestHandler.java:178-192 | a login missing either field is refused with "Message not formatted properly. check API docs" |
| RequestHandling.LoginReportsResult | src/main/java/simpleserver/server/ClientRequestHandler.java:177-189 | the client takes the login username in any case; success echoes the credentials, and failure answers the result's text |
| RequestHandling.LoggedInResponseEchoes | src/main/java/simpleserver/server/ClientRequestHandler.java:183-185 | the login success response holds exactly status, message and the two echoed credentials |
| RequestHandling.RegistrationNeedsBothFields | src/main/java/simpleserver/server/ClientRequestHandler.java:137-157 | a registration missing either field is refused with "Error during registration, check API docs" |
| RequestHandling.RegistrationOfTakenUsername | src/main/java/simpleserver/server/ClientRequestHandler.java:138-154 | a taken username is refused with "User already registered with this username", nothing changed |
| RequestHandling.RegistrationOfNewUsername | src/main/java/simpleserver/server/ClientRequestHandler.java:138-152 | a free username is stored, the client takes both fields, and the login result decides between the echoing success and "user registered but unable to login" |
| RequestHandling.NewUserLogsIn | src/main/java/simpleserver/server/ClientRequestHandler.java:143-150 | after a registration the login fails iff the username is already in the directory; on success the channel maps to it and it has an empty queue |
| RequestHandling.OtherRequestsGoToActionTable | src/main/java/simpleserver/server/ClientRequestHandler.java:70-73 | other request types run the server action for that name, or the unknown command; the dispatch's outcome is the action's, and the session and services are unchanged |
| RequestHandling.ActionOutcomes | src/main/java/simpleserver/server/ClientRequestHandler.java:70-81 | an action's response is written and the loop goes on; its `NoSuchElementException` is answered "mailbox is empty" and the loop goes on; an exception not caught inside ends the loop; `System.exit` ends the run with nothing written after it |
| RequestHandling.RefreshComesFirst | src/main/java/simpleserver/server/ClientRequestHandler.java:49-58 | a client that needs it is refreshed before dispatch; an unreadable descriptor or an unparsable line ends the loop |
| RequestHandling.CaughtExceptions | src/main/java/simpleserver/server/ClientRequestHandler.java:75-81 | exactly the three caught exceptions are answered, with "The server could not parse this message" and "mailbox is empty" |
| RequestHandling.RefreshTouchesOnlyOwnChannel | src/main/java/simpleserver/server/ClientRequestHandler.java:161-175 | a refresh changes the directory entry of its own channel at most |
| RequestHandling.LoginTouchesOnlyOwnChannel | src/main/java/simpleserver/server/ClientRequestHandler.java:177-193 | a login request changes the directory entry of its own channel at most |
| RequestHandling.LoginDirectoryTouchesOnlyOwnChannel | src/main/java/simpleserver/service/UserService.java:47 | the user service's login changes the entry of its own channel at most |
| RequestHandling.RegistrationTouchesOnlyOwnChannel | src/main/java/simpleserver/server/ClientRequestHandler.java:136-159 | a registration request changes the directory entry of its own channel at most |
| RequestHandling.DispatchTouchesOnlyOwnChannel | src/main/java/simpleserver/server/ClientRequestHandler.java:60-74 | every branch of the dispatch changes the directory entry of its own channel at most, whatever the server's actions do |
| RequestHandling.StepTouchesOnlyOwnChannel | src/main/java/simpleserver/server/ClientRequestHandler.java:49-81 | one loop iteration changes the directory entry of its own channel at most |
| RequestHandling.ServeDisconnects | src/main/java/simpleserver/server/ClientRequestHandler.java:45-107 | whatever the server's actions do, other channels' entries are kept; unless an action ended the process, the channel leaves the directory and the last reply is "Ending connection" |
| RequestHandling.NothingAfterExit | src/main/java/simpleserver/server/ClientRequestHandler.java:70-73 | an action that ends the process is the last thing in the run: no reply follows it |
| RequestHandling.ClientRequestHandler.constructor | src/main/java/simpleserver/server/ClientRequestHandler.java:33-42 | the handler starts with a client that is not logged in |
| RequestHandling.ClientRequestHandler.UpdateClientInfoFromRequest | src/main/java/simpleserver/server/ClientRequestHandler.java:161-175 | client, directory and outcome are those of the refresh function |
| RequestHandling.ClientRequestHandler.ProcessMessageRequest | src/main/java/simpleserver/server/ClientRequestHandler.java:109-134 | state and reply are those of the message function |
| RequestHandling.ClientRequestHandler.ProcessClientRegistrationFromRequest | src/main/java/simpleserver/server/ClientRequestHandler.java:136-159 | state and reply are those of the registration function |
| RequestHandling.ClientRequestHandler.ProcessClientLoginRequest | src/main/java/simpleserver/server/ClientRequestHandler.java:177-193 | state and reply are those of the login function |
| RequestHandling.ClientRequestHandler.HandleLine | src/main/java/simpleserver/server/ClientRequestHandler.java:49-81 | one iteration's state, reply and stop flag are those of the step function |
| RequestHandling.ClientRequestHandler.Run | src/main/java/simpleserver/server/ClientRequestHandler.java:45-107 | the final state and all replies are those of the run function; unless an action ended the process, the channel is disconnected |
| ServerMailboxes.SendToUnregistered | src/main/java/simpleserver/server/Mailbox.java:47-50 | a receiver without a queue is refused with "Client is not registered in the mailbox", nothing changed |
| ServerMailboxes.SendWithRoom | src/main/java/simpleserver/server/Mailbox.java:52-56 | with room in the queue and the save buffer the message goes to both, with success "Message sent successfully" |
| ServerMailboxes.SendToFullQueue | src/main/java/simpleserver/server/Mailbox.java:57-60 | a full queue is refused with "Client Mailbox is full", nothing changed |
| ServerMailboxes.SendKeepsBounds | src/main/java/simpleserver/server/Mailbox.java:24-61 | sends keep queues within five, the save buffer within 25, and other queues untouched |
| ServerMailboxes.RemovedUserIsUnregistered | src/main/java/simpleserver/server/Mailbox.java:63-65 | after removal the user has no queue and a send to them is refused as not registered |
| ServerMailboxes.OpenPopsOldest | src/main/java/simpleserver/server/Mailbox.java:67-74 | opening pops the oldest message into a response holding only `messageObject`; an empty queue throws `NoSuchElementException` |
| ServerMailboxes.ServerMailbox.constructor | src/main/java/simpleserver/server/Mailbox.java:24-33 | the mailbox starts with no queues and an empty save buffer |
| ServerMailboxes.ServerMailbox.AddClient | src/main/java/simpleserver/server/Mailbox.java:35-39 | the user gets a fresh empty queue and the save buffer is unchanged |
| ServerMailboxes.ServerMailbox.SendMessage | src/main/java/simpleserver/server/Mailbox.java:41-61 | queues, save buffer and answer are those of the send function, within bounds |
| ServerMailboxes.ServerMailbox.RemoveClient | src/main/java/simpleserver/server/Mailbox.java:63-65 | the user's queue is removed and the save buffer is unchanged |
| ServerMailboxes.ServerMailbox.OpenMessage | src/main/java/simpleserver/server/Mailbox.java:67-74 | queues and answer are those of the open function |
| ServerMailboxes.ServerMailbox.Take | src/main/java/simpleserver/server/Mailbox.java:76-115 | the saver thread takes the oldest accepted message first |
| LegacyMailboxes.SendAlwaysHasStatusAndMessage | src/main/java/simpleserver/Mailbox.java:25-48 | every answer holds exactly status and message, status is "success" iff the message was queued, and otherwise nothing changes |
| LegacyMailboxes.SendCases | src/main/java/simpleserver/Mailbox.java:25-48 | unregistered, queued and full: the three answers and the state each leaves |
| LegacyMailboxes.SendKeepsBound | src/main/java/simpleserver/Mailbox.java:37-41 | a send keeps queues within five and other queues untouched |
| LegacyMailboxes.OpenPopsOldest | src/main/java/simpleserver/Mailbox.java:55-62 | opening pops the oldest message into `messageObject`; an empty queue throws `NoSuchElementException` |
| LegacyMailboxes.LegacyMailbox.constructor | src/main/java/simpleserver/Mailbox.java:19-23 | the mailbox starts with no queues |
| LegacyMailboxes.LegacyMailbox.AddClient | src/main/java/simpleserver/Mailbox.java:19-23 | the user gets a fresh empty queue |
| LegacyMailboxes.LegacyMailbox.SendMessage | src/main/java/simpleserver/Mailbox.java:25-48 | the response built property by property and the queues are those of the send function |
| LegacyMailboxes.LegacyMailbox.RemoveClient | src/main/java/simpleserver/Mailbox.java:50-52 | the user's queue is removed |
| LegacyMailboxes.LegacyMailbox.OpenMessage | src/main/java/simpleserver/Mailbox.java:55-62 | queues and answer are those of the open function |
| ServerRequestTable.LookupOfTable | src/main/java/simpleserver/server/ServerRequests.java:24-39 | each of the five keys gives its entry; any other request gives error "unknown server command" |
| ServerRequestTable.PingAndHelpTexts | src/main/java/simpleserver/server/ServerRequests.java:41-71 | ping answers "PONG"; help answers "available commands" with the eight commands in order |
| ServerRequestTable.UptimeCarriesSeconds | src/main/java/simpleserver/server/ServerRequests.java:45-51 | the uptime response is a success carrying the given seconds |
| ServerRequestTable.InfoCases | src/main/java/simpleserver/server/ServerRequests.java:73-88 | a missing resource gives error "Server is unable to find the version"; a version gives it with the startup date; no version throws `NullPointerException` |
| ServerRequestTable.ServerRequests.constructor | src/main/java/simpleserver/server/ServerRequests.java:24-34 | the table holds ping, uptime, info, help and unknown, computed once |
| ServerRequestTable.ServerRequests.GetResponse | src/main/java/simpleserver/server/ServerRequests.java:37-39 | a known request gives its table entry and any other the unknown-command response; the table never changes |
| SimpleServers.LoadRegisteredUsersCases | src/main/java/simpleserver/server/SimpleServer.java:69-78 | a read failure gives an empty list; loading throws iff Gson gives no list, with `NullPointerException` from `addAll` for a null result and `JsonSyntaxException` for malformed text; otherwise the decoded list |
| SimpleServers.NullTextThrows | src/main/java/simpleserver/server/SimpleServer.java:69-78 | a file of only whitespace, or the text `null`, makes loading throw `NullPointerException` |
| SimpleServers.UnverifiedClientRefused | src/main/java/simpleserver/server/SimpleServer.java:259-273 | a client with a blank username or password is refused everything outside the action table and login, nothing changed |
| SimpleServers.LoginCases | src/main/java/simpleserver/server/SimpleServer.java:180-189 | login succeeds iff a stored credential matches both fields; it then gives a fresh empty queue and touches no other |
| SimpleServers.SecondLoginDiscardsQueue | src/main/java/simpleserver/server/SimpleServer.java:180-189 | with no already-logged-in check, logging in again succeeds and throws away the unread messages |
| SimpleServers.LoginResponses | src/main/java/simpleserver/server/SimpleServer.java:240-257 | missing fields give "Cannot login right now"; the client takes the login username; success appends one credential and echoes; failure answers "Could not login" |
| SimpleServers.ActionKeysAreCanonical | src/main/java/simpleserver/server/SimpleServer.java:53-58 | every action key is trimmed lower case, so the lookup finds the key's own action |
| SimpleServers.ActionsNeedNoVerification | src/main/java/simpleserver/server/SimpleServer.java:232-239 | a request naming an action runs it without verification |
| SimpleServers.OpenCommand | src/main/java/simpleserver/server/SimpleServer.java:57 | "open" answers the oldest message alone, which leaves the queue with nothing else changed, or "mailbox is empty" on an empty queue; the loop reads on |
| SimpleServers.VerifiedMessageGoesToMailbox | src/main/java/simpleserver/server/SimpleServer.java:259-269 | a verified request with a `messageObject` reaches the mailbox; without one the answer is "unknown command" |
| SimpleServers.FullSaveBufferReportedAsParseError | src/main/java/simpleserver/server/SimpleServer.java:262-276 | a full save buffer queues the message, then answers "The server could not parse this message" |
| SimpleServers.DispatchKeepsChannels | src/main/java/simpleserver/server/SimpleServer.java:232-269 | no branch of the dispatch changes the channel table |
| SimpleServers.StepKeepsChannels | src/main/java/simpleserver/server/SimpleServer.java:213-280 | a step changes at most its own channel's entry and never removes it |
| SimpleServers.NoCleanupWithoutReadFailure | src/main/java/simpleserver/server/SimpleServer.java:282-292 | a connection that ends without a failed read keeps its channel in the table |
| SimpleServers.ReadFailureCleansUp | src/main/java/simpleserver/server/SimpleServer.java:285-289 | a failed read answers its message, removes the channel and a refreshed client's queue, and keeps the credentials |
| SimpleServers.SimpleServer.constructor | src/main/java/simpleserver/server/SimpleServer.java:53-60 | the server starts with no channels, a fresh mailbox and the loaded credentials |
| SimpleServers.SimpleServer.Accept | src/main/java/simpleserver/server/SimpleServer.java:88-89 | an accepted channel enters the table with a null username |
| SimpleServers.SimpleServer.LoginUser | src/main/java/simpleserver/server/SimpleServer.java:180-189 | queues and result are those of the login function; the save buffer is unchanged |
| SimpleServers.ClientHandler.constructor | src/main/java/simpleserver/server/SimpleServer.java:191-202 | the handler starts with a client that is not logged in |
| SimpleServers.ClientHandler.ExecuteAction | src/main/java/simpleserver/server/SimpleServer.java:232-239 | state and reply are those of running the action |
| SimpleServers.ClientHandler.LoginRequest | src/main/java/simpleserver/server/SimpleServer.java:240-257 | state and reply are those of the login branch |
| SimpleServers.ClientHandler.MessageRequest | src/main/java/simpleserver/server/SimpleServer.java:259-269 | state and reply are those of the message branch |
| SimpleServers.ClientHandler.HandleLine | src/main/java/simpleserver/server/SimpleServer.java:207-280 | one iteration's state, reply and stop flag are those of the step function |
| SimpleServers.ClientHandler.Run | src/main/java/simpleserver/server/SimpleServer.java:204-294 | the final state and all replies are those of the run function |
| Clients.EqualityIsByUsername | src/main/java/simpleserver/client/SimpleClient.java:144-155 | clients are equal iff their usernames are, whatever else differs; equal clients hash alike; never equal to null or another class |
| Clients.TranslateCases | src/main/java/simpleserver/client/SimpleClient.java:62-96 | a line crashes iff it has no token or is "message" alone; it sends nothing iff login or register lacks two arguments; a sent request carries the first token and the client's descriptor |
| Clients.SpacesCrash | src/main/java/simpleserver/client/SimpleClient.java:66-72 | a line of spaces crashes the loop |
| Clients.TypedMessage | src/main/java/simpleserver/client/SimpleClient.java:74-81 | "message R w1 … wn" sends a message from the current username to R, the words joined by single spaces |
| Clients.TypedCredentials | src/main/java/simpleserver/client/SimpleClient.java:82-92 | "login U P" and "register U P" send U and P under the command's own property names, and nothing else |
| Clients.TypingSendsInOrder | src/main/java/simpleserver/client/SimpleClient.java:62-96 | the requests are sent line by line in order, skipping lines that send nothing, up to the first crash |
| Clients.LoginResponseSetsCredentials | src/main/java/simpleserver/client/SimpleClient.java:124-128 | after the server's login success response the client holds the echoed credentials |
| Clients.RegisteredResponseSetsCredentials | src/main/java/simpleserver/client/SimpleClient.java:129-134 | after the server's registration success response the client holds the echoed credentials |
| Clients.MessageDeliveryKeepsCredentials | src/main/java/simpleserver/client/SimpleClient.java:119-120 | a response carrying a `messageObject` changes nothing |
| Clients.OnlySuccessChangesCredentials | src/main/java/simpleserver/client/SimpleClient.java:119-134 | only a success response without a message changes the client; authority and the logged-in flag never change |
| Clients.ReaderKeepsAuthority | src/main/java/simpleserver/client/SimpleClient.java:109-142 | over any run of the reader the client keeps its authority and flag, and keeps non-null credentials |
| Clients.SimpleClient.constructor | src/main/java/simpleserver/client/SimpleClient.java:43-47 | the client starts with empty credentials, authority USER, not logged in |
| Clients.SimpleClient.ReadConsole | src/main/java/simpleserver/client/SimpleClient.java:62-96 | the loop sends the requests of the typed lines and ends with the translation's exception |
| Clients.SimpleClient.ReceiveResponse | src/main/java/simpleserver/client/SimpleClient.java:115-135 | the credentials after one response and the exception are those of the reader function |
| Clients.SimpleClient.RunIncomingReader | src/main/java/simpleserver/client/SimpleClient.java:109-142 | the reader loop leaves the state and exception of the run function |
| LegacyClients.EqualityIsByUsername | src/main/java/simpleserver/SimpleClient.java:156-167 | clients are equal iff their usernames are; equal clients hash alike; never equal to null or another class |
| LegacyClients.TranslateCases | src/main/java/simpleserver/SimpleClient.java:63-88 | every request carries the username; a line fails iff it lacks the tokens its command needs; any other first token is sent as `serverRequest` |
| LegacyClients.TypedMessage | src/main/java/simpleserver/SimpleClient.java:71-78 | "message R w1 … wn" sends a message from the username to R, the words joined by single spaces |
| LegacyClients.TypedLogin | src/main/java/simpleserver/SimpleClient.java:79-83 | "login U P" sends U and P as the login credentials |
| LegacyClients.TypedServerRequest | src/main/java/simpleserver/SimpleClient.java:84-86 | a single other word is sent as the server request |
| LegacyClients.LegacySimpleClient.constructor | src/main/java/simpleserver/SimpleClient.java:33-35 | only the username is set |
| LegacyClients.LegacySimpleClient.SetUsername | src/main/java/simpleserver/SimpleClient.java:132-134 | only the username changes |
| LegacyClients.LegacySimpleClient.SetLoggedIn | src/main/java/simpleserver/SimpleClient.java:144-146 | only the logged-in flag changes |
| LegacyClients.LegacySimpleClient.SetRegistered | src/main/java/simpleserver/SimpleClient.java:152-154 | only the registered flag changes |
| LegacyClients.LegacySimpleClient.ReadConsole | src/main/java/simpleserver/SimpleClient.java:63-88 | the loop sends the requests of the typed lines and ends with the translation's exception |

## Left out

- Sockets, threads and executors: a connection is a sequence of lines read and a
  sequence of replies written.
  - A failed read is an input element carrying its message.
  - The end of the stream ends the input.
  - The interleaving of a client's console loop with its reader thread, and of
    server handlers with one another, is not modelled.
- Gson: JSON text, parsing and `gson.toJson` are not modelled.
  - Decoding the credentials file is a given result: a list, null, or malformed.
  - Only Gson's null result for blank text and for `null` is stated
    (`GsonDecoding`).
  - A request is the record of properties the server reads.
  - A response is a map from property name to value.
  - A line that does not parse is `Unparsable`, and `JsonIOException` is not
    modelled.
- Reading JSON values: a property whose value cannot be read is one unreadable
  input; which exception it throws is not modelled further.
  - This covers a JSON null, a nested object, a message text that does not decode
    as `Message`, and an authority that `UserAuthority.valueOf` rejects.
  - In the clients, `getAsString` on a number or an array is modelled as throwing.
    The server sends only strings under the names the clients read.
- The saver threads, `MessageRepository.run` and `server/Mailbox.MessageSaver`,
  are not modelled as loops over the file.
  - Only the `take` order and the records they append are modelled.
  - Saving the registered users at shutdown (`saveRegisteredUsers`) is left out:
    it only writes the list out.
- `RandomAccessFile` and the file system are modelled only as far as the bracket
  fix-up uses them.
  - Seeks past the end of the file are left out.
  - The `IOException` of opening the file is left out, as is the class-path
    resource loading.
- The clock: the startup date is a parameter, and so is the uptime.
  - The older server reads the clock for each "uptime" request. Its reading is a
    function of the connection's line index.
  - `ServerRequests` computes the uptime once in its constructor; the table keeps
    that value.
- RequestHandling.Dispatch: the server actions the current handler runs are a
  parameter (`ActionRunner`).
  - Given the line index, the action and the client, it returns the action's
    response, `ExitServer`, or an exception.
  - The actions work on the older server's own mailbox and clock. Those are not
    part of the handler's services, so the parameter stands for them.
  - The handler's lemmas hold for every such parameter.
- `System.exit` ("stop" in the older server, I/O failures in the clients) is an
  `ExitServer` reply or the end of the loop.
- The oldest server, `src/main/java/simpleserver/SimpleServer.java`, is not part of
  this model; its mailbox is.
- Queue keys: the mailboxes key queues by client object with username-only
  equality and hash. The model keys them by username.
  - Renaming a client object after it became a key (aliasing through the mutable
    `HashMap` key) is not modelled.
- UserRepositories.UserRepository.constructor: requires a credentials file that
  yields a list.
  - Loading that throws makes the source's constructor throw, so there is no
    repository.
  - A null list makes every later use of the repository throw
    `NullPointerException`. `LoadFallbacks` and `NullTextGivesNullList` state when
    this happens.
- SimpleServers.SimpleServer.constructor: requires a credentials file whose
  loading does not throw.
  - The source's constructor then throws, so no server exists to model.
- ServerRequestTable.ServerRequests.constructor: requires an `info` entry that
  does not throw (a resource with a "version" property).
  - Otherwise the source's constructor throws.
- SimpleServers.LoginResponses: states the credential appended at
  `server/SimpleServer.java:245` as the source builds it.
  - It holds the login username with the password the client's descriptor
    carried, not the login password.
- Clients.TranslateLine: requires the client's username and password to be
  non-null.
  - `connectToServer` sets them before its loop, and the server's echoes only set
    strings.
  - What `userResponse` would do with a null is not shown in the source.
- The clients' `readLine` returning null at the end of the console input is
  modelled as the `NullPointerException` of the following `split`.
