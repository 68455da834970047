/** `UserService` (src/main/java/simpleserver/service/UserService.java): the directory
    of connected clients (channel to username), login against the stored
    credentials, and registration of new credentials. */
module UserServices {
  import opened JavaLang
  import opened Envelope
  import opened LoginResults
  import opened MailboxQueues
  import opened UserRepositories
  import opened MessageRepositories
  import opened MessageServices

  /** `connectedClients`: the username each open channel is known by. */
  type Directory = map<Channel, string>

  /** `verifyUser(client)`: the username or the password is not blank. */
  predicate VerifyUser(username: Option<string>, password: Option<string>) {
    !IsBlankRef(username) || !IsBlankRef(password)
  }

  /** `userService.userIsConnected(id)`, which the request handler calls but whose
      body is not part of the shown service: taken to hold when the id is one of the
      directory's usernames (null never is). */
  predicate UserIsConnected(connected: Directory, id: Option<string>) {
    id.Some? && id.value in connected.Values
  }

  /** The directory, the message queues and the result of one login. */
  datatype LoginOutcome = LoginOutcome(connected: Directory, queues: Table, result: LoginResult)

  /** `loginUser(channel, username, password)`: the credential check comes first,
      the online check second; only a success changes state, mapping the channel to
      the username and giving the user a fresh empty queue. */
  function Login(users: seq<Credentials>, connected: Directory, queues: Table, ch: Channel, username: string, password: string): LoginOutcome {
    if !HasCredential(users, username, password) then LoginOutcome(connected, queues, UserNotFound)
    else if username in connected.Values then LoginOutcome(connected, queues, UserAlreadyLoggedIn)
    else LoginOutcome(connected[ch := username], AddRecipient(queues, username), LoginSuccess)
  }

  /** `registerNewUser(username, password)`: refused when the username is taken,
      otherwise the credential is appended. */
  function Register(users: seq<Credentials>, username: string, password: string): (seq<Credentials>, bool) {
    if UsernameTaken(users, username) then (users, false) else (users + [Credentials(username, password)], true)
  }

  /** `disconnectClient(channel)`. */
  function Disconnect(connected: Directory, ch: Channel): Directory {
    connected - {ch}
  }

  /** `updateClient(client)`: rewrites the username of a channel already present. */
  function Update(connected: Directory, ch: Channel, username: string): Directory {
    if ch in connected then connected[ch := username] else connected
  }

  /** No username is connected on two channels. */
  predicate OneChannelPerUser(connected: Directory) {
    forall c1, c2 :: c1 in connected && c2 in connected && connected[c1] == connected[c2] ==> c1 == c2
  }

  /** `verifyUser` accepts a client exactly when one of the two fields holds a
      non-whitespace character; a client with neither field set is refused. */
  lemma {:induction false} VerifyUserCases(username: Option<string>, password: Option<string>)
    ensures VerifyUser(username, password) <==>
      (username.Some? && exists i :: 0 <= i < |username.value| && !IsWhitespace(username.value[i])) ||
      (password.Some? && exists i :: 0 <= i < |password.value| && !IsWhitespace(password.value[i]))
    ensures !VerifyUser(None, None) && !VerifyUser(Some(" "), Some(""))
    ensures VerifyUser(Some("connectedUser"), Some("password"))
  {
    assert !IsWhitespace("connectedUser"[0]);
  }

  /** USER_NOT_FOUND exactly when no stored credential matches both fields, also
      for a user who is online; the directory and the queues are then unchanged. */
  lemma {:induction false} LoginNotFound(users: seq<Credentials>, connected: Directory, queues: Table, ch: Channel, username: string, password: string)
    ensures Login(users, connected, queues, ch, username, password).result == UserNotFound <==> !HasCredential(users, username, password)
    ensures !HasCredential(users, username, password) ==>
      Login(users, connected, queues, ch, username, password) == LoginOutcome(connected, queues, UserNotFound)
  {
  }

  /** USER_ALREADY_LOGGED_IN exactly when the credentials match and the username is
      already connected; nothing changes. */
  lemma {:induction false} LoginAlreadyConnected(users: seq<Credentials>, connected: Directory, queues: Table, ch: Channel, username: string, password: string)
    ensures Login(users, connected, queues, ch, username, password).result == UserAlreadyLoggedIn <==>
      HasCredential(users, username, password) && username in connected.Values
    ensures Login(users, connected, queues, ch, username, password).result != LoginSuccess ==>
      Login(users, connected, queues, ch, username, password).connected == connected &&
      Login(users, connected, queues, ch, username, password).queues == queues
  {
  }

  /** LOGIN_SUCCESS exactly when the credentials match and the username is not yet
      connected; the channel then maps to the username, which has an empty queue,
      and every other channel and queue is as it was. */
  lemma {:induction false} LoginSucceeds(users: seq<Credentials>, connected: Directory, queues: Table, ch: Channel, username: string, password: string)
    ensures var o := Login(users, connected, queues, ch, username, password);
      o.result == LoginSuccess <==> HasCredential(users, username, password) && username !in connected.Values
    ensures var o := Login(users, connected, queues, ch, username, password);
      o.result == LoginSuccess ==>
        o.connected == connected[ch := username] &&
        username in o.queues && o.queues[username] == [] &&
        (forall v :: v in queues && v != username ==> v in o.queues && o.queues[v] == queues[v])
  {
  }

  /** A login never connects one username on two channels. */
  lemma {:induction false} LoginKeepsOneChannelPerUser(users: seq<Credentials>, connected: Directory, queues: Table, ch: Channel, username: string, password: string)
    requires OneChannelPerUser(connected)
    ensures OneChannelPerUser(Login(users, connected, queues, ch, username, password).connected)
  {
    var o := Login(users, connected, queues, ch, username, password);
    if o.result == LoginSuccess {
      forall c1, c2 | c1 in o.connected && c2 in o.connected && o.connected[c1] == o.connected[c2]
        ensures c1 == c2
      {
        if c1 != ch && c2 != ch {
          assert connected[c1] == connected[c2];
        }
      }
    }
  }

  /** `updateClient` has no such guard: renaming a channel to a username connected
      elsewhere puts the username on two channels. */
  lemma UpdateMayDuplicateUser()
    ensures var connected := map[Channel(0) := "alice", Channel(1) := "bob"];
      OneChannelPerUser(connected) && !OneChannelPerUser(Update(connected, Channel(1), "alice"))
  {
    var connected := map[Channel(0) := "alice", Channel(1) := "bob"];
    var updated := Update(connected, Channel(1), "alice");
    assert updated[Channel(0)] == updated[Channel(1)];
  }

  /** Registration is refused exactly when the username is taken, whatever the
      password, and then nothing is added; otherwise exactly the new credential is
      appended once. */
  lemma {:induction false} RegisterAddIfAbsent(users: seq<Credentials>, username: string, password: string)
    ensures Register(users, username, password).1 <==> !UsernameTaken(users, username)
    ensures !Register(users, username, password).1 ==> Register(users, username, password).0 == users
    ensures Register(users, username, password).1 ==>
      Register(users, username, password).0 == users + [Credentials(username, password)] &&
      HasCredential(Register(users, username, password).0, username, password) &&
      UsernameTaken(Register(users, username, password).0, username)
  {
    AppendKeepsCredentials(users, Credentials(username, password), username, password);
  }

  /** Disconnecting removes the channel's entry only and is idempotent. */
  lemma {:induction false} DisconnectRemovesOnlyChannel(connected: Directory, ch: Channel)
    ensures ch !in Disconnect(connected, ch)
    ensures forall c :: c in connected && c != ch ==> c in Disconnect(connected, ch) && Disconnect(connected, ch)[c] == connected[c]
    ensures Disconnect(Disconnect(connected, ch), ch) == Disconnect(connected, ch)
  {
  }

  /** An update never adds a channel and changes at most the given channel's
      username. */
  lemma {:induction false} UpdateNeverAdds(connected: Directory, ch: Channel, username: string)
    ensures Update(connected, ch, username).Keys == connected.Keys
    ensures ch in connected ==> Update(connected, ch, username)[ch] == username
    ensures forall c :: c in connected && c != ch ==> Update(connected, ch, username)[c] == connected[c]
  {
  }

  class UserService {
    var connectedClients: Directory
    const messageService: MessageService
    const userRepository: UserRepository

    constructor (messageService: MessageService, userRepository: UserRepository)
      ensures connectedClients == map[]
      ensures this.messageService == messageService && this.userRepository == userRepository
    {
      connectedClients := map[];
      this.messageService := messageService;
      this.userRepository := userRepository;
    }

    /** `loginUser(channel, username, password)`. */
    method LoginUser(ch: Channel, username: string, password: string) returns (result: LoginResult)
      modifies this, messageService
      ensures var o := Login(old(userRepository.registeredUsers), old(connectedClients), old(messageService.unreadMessages), ch, username, password);
        connectedClients == o.connected && messageService.unreadMessages == o.queues && result == o.result
    {
      if HasCredential(userRepository.GetAllUsers(), username, password) {
        if username in connectedClients.Values {
          return UserAlreadyLoggedIn;
        }
        connectedClients := connectedClients[ch := username];
        messageService.AddClient(username);
        return LoginSuccess;
      }
      return UserNotFound;
    }

    /** `registerNewUser(username, password)`: a scan of the stored credentials that
        stops at the first one with this username. */
    method RegisterNewUser(username: string, password: string) returns (registered: bool)
      modifies userRepository
      ensures userRepository.registeredUsers == Register(old(userRepository.registeredUsers), username, password).0
      ensures registered == Register(old(userRepository.registeredUsers), username, password).1
    {
      var users := userRepository.GetAllUsers();
      for i := 0 to |users|
        invariant forall j :: 0 <= j < i ==> users[j].username != username
      {
        if users[i].username == username {
          return false;
        }
      }
      userRepository.AddUser(Credentials(username, password));
      return true;
    }

    /** `disconnectClient(channel)`. */
    method DisconnectClient(ch: Channel)
      modifies this
      ensures connectedClients == Disconnect(old(connectedClients), ch)
    {
      connectedClients := connectedClients - {ch};
    }

    /** `updateClient(client)`. */
    method UpdateClient(ch: Channel, username: string)
      modifies this
      ensures connectedClients == Update(old(connectedClients), ch, username)
    {
      if ch in connectedClients {
        connectedClients := connectedClients[ch := username];
      }
    }
  }
}
