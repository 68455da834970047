/** `UserRepository` (src/main/java/simpleserver/repository/UserRepository.java): the
    in-memory list of registered credentials, loaded once from a file. The file
    system and Gson are abstracted: the file is given as its state, and the list
    Gson decodes from non-empty contents is part of that state. */
module UserRepositories {
  import opened JavaLang

  /** `RegisteredUserCredentials(username, password)`. */
  datatype Credentials = Credentials(username: string, password: string)

  /** What `new Gson().fromJson(data, type)` makes of a file's text: a list of
      credentials, null, or a `JsonSyntaxException` for text that is not a JSON
      array of credentials. */
  datatype Decoded = DecodedList(list: seq<Credentials>) | DecodedNull | Malformed

  /** A whitespace character of the JSON grammar. */
  predicate IsJsonWhitespace(c: char) {
    c == ' ' || c == '\t' || c == '\n' || c == '\r'
  }

  /** What Gson fixes about decoding: text holding no JSON value (nothing but
      whitespace) and the literal `null` decode to null. */
  predicate GsonDecoding(data: string, decoded: Decoded) {
    ((forall i :: 0 <= i < |data| ==> IsJsonWhitespace(data[i])) || data == "null") ==> decoded == DecodedNull
  }

  /** The credentials file as the loaders find it: missing, present but failing to
      read (`IOException`), or readable with its text and what Gson decodes from
      that text. */
  datatype StoredFile = Missing | ReadError | Stored(data: string, decoded: Decoded)

  /** `loadUsersFromFile(filePath)`: an empty list for a null or empty path, a
      missing file, empty contents or a read error; otherwise what Gson decodes,
      returned as it is: a null list (`None`) for text Gson decodes to null, and a
      `JsonSyntaxException` thrown to the caller for malformed text, which the
      `catch (IOException)` does not handle. */
  function LoadUsersFromFile(filePath: Option<string>, file: StoredFile): Outcome<Option<seq<Credentials>>> {
    if filePath.None? || filePath.value == "" then Returned(Some([]))
    else match file
      case Missing => Returned(Some([]))
      case ReadError => Returned(Some([]))
      case Stored(data, decoded) =>
        if data == "" then Returned(Some([]))
        else match decoded
          case DecodedList(list) => Returned(Some(list))
          case DecodedNull => Returned(None)
          case Malformed => Threw(JsonSyntax)
  }

  /** Every failure on the way to the file's contents gives an empty list; only a
      readable, non-empty file at a non-empty path reaches Gson, whose null result
      is returned as a null list and whose syntax error escapes. */
  lemma {:induction false} LoadFallbacks(filePath: Option<string>, file: StoredFile)
    ensures filePath.None? || filePath == Some("") ==> LoadUsersFromFile(filePath, file) == Returned(Some([]))
    ensures file.Missing? || file.ReadError? ==> LoadUsersFromFile(filePath, file) == Returned(Some([]))
    ensures file.Stored? && file.data == "" ==> LoadUsersFromFile(filePath, file) == Returned(Some([]))
    ensures var reachesGson := filePath.Some? && filePath.value != "" && file.Stored? && file.data != "";
      (LoadUsersFromFile(filePath, file) == Threw(JsonSyntax) <==> reachesGson && file.decoded.Malformed?) &&
      (LoadUsersFromFile(filePath, file) == Returned(None) <==> reachesGson && file.decoded.DecodedNull?) &&
      (LoadUsersFromFile(filePath, file).Threw? ==> LoadUsersFromFile(filePath, file) == Threw(JsonSyntax)) &&
      (reachesGson && file.decoded.DecodedList? ==> LoadUsersFromFile(filePath, file) == Returned(Some(file.decoded.list)))
    ensures LoadUsersFromFile(filePath, file) == Returned(Some([])) || LoadUsersFromFile(filePath, file) == Returned(None) ||
      LoadUsersFromFile(filePath, file) == Threw(JsonSyntax) ||
      (file.Stored? && file.decoded.DecodedList? && LoadUsersFromFile(filePath, file) == Returned(Some(file.decoded.list)))
  {
  }

  /** A non-empty file of whitespace only, or holding `null`, passes the emptiness
      check and is decoded by Gson to null, so the repository's list is null. */
  lemma {:induction false} NullTextGivesNullList(filePath: string, data: string, decoded: Decoded)
    requires filePath != "" && data != "" && GsonDecoding(data, decoded)
    requires (forall i :: 0 <= i < |data| ==> IsJsonWhitespace(data[i])) || data == "null"
    ensures LoadUsersFromFile(Some(filePath), Stored(data, decoded)) == Returned(None)
  {
    assert decoded == DecodedNull;
  }

  /** Some stored credential has this username and this password. */
  predicate HasCredential(users: seq<Credentials>, username: string, password: string) {
    exists i :: 0 <= i < |users| && users[i] == Credentials(username, password)
  }

  /** Some stored credential has this username, whatever its password. */
  predicate UsernameTaken(users: seq<Credentials>, username: string) {
    exists i :: 0 <= i < |users| && users[i].username == username
  }

  class UserRepository {
    var registeredUsers: seq<Credentials>

    /** `new UserRepository(filePath)`: the list starts as what the file yields.
        A file whose loading throws makes the Java constructor throw, and one that
        yields a null list leaves no list to model. */
    constructor (filePath: Option<string>, file: StoredFile)
      requires LoadUsersFromFile(filePath, file).Returned? && LoadUsersFromFile(filePath, file).value.Some?
      ensures registeredUsers == LoadUsersFromFile(filePath, file).value.value
    {
      registeredUsers := LoadUsersFromFile(filePath, file).value.value;
    }

    /** `getAllUsers()`: the live list, so a read after `AddUser` sees the
        addition. */
    function GetAllUsers(): seq<Credentials>
      reads this
    {
      registeredUsers
    }

    /** `addUser(credentials)`: appended at the end with no uniqueness check, the
        earlier entries untouched. */
    method AddUser(credentials: Credentials)
      modifies this
      ensures registeredUsers == old(registeredUsers) + [credentials]
      ensures GetAllUsers()[..|old(registeredUsers)|] == old(GetAllUsers())
      ensures HasCredential(GetAllUsers(), credentials.username, credentials.password)
    {
      registeredUsers := registeredUsers + [credentials];
      assert registeredUsers[|registeredUsers| - 1] == credentials;
    }
  }

  /** Appending a credential keeps every earlier credential and makes the new one
      found, also when its username was already taken. */
  lemma {:induction false} AppendKeepsCredentials(users: seq<Credentials>, c: Credentials, username: string, password: string)
    ensures HasCredential(users + [c], username, password) <==>
      HasCredential(users, username, password) || c == Credentials(username, password)
    ensures UsernameTaken(users + [c], username) <==> UsernameTaken(users, username) || c.username == username
  {
    var extended := users + [c];
    if HasCredential(users, username, password) {
      var i :| 0 <= i < |users| && users[i] == Credentials(username, password);
      assert extended[i] == users[i];
    }
    if c == Credentials(username, password) {
      assert extended[|users|] == c;
    }
    if UsernameTaken(users, username) {
      var i :| 0 <= i < |users| && users[i].username == username;
      assert extended[i] == users[i];
    }
    if c.username == username {
      assert extended[|users|] == c;
    }
    if HasCredential(extended, username, password) {
      var i :| 0 <= i < |extended| && extended[i] == Credentials(username, password);
      if i < |users| {
        assert users[i] == extended[i];
      }
    }
    if UsernameTaken(extended, username) {
      var i :| 0 <= i < |extended| && extended[i].username == username;
      if i < |users| {
        assert users[i] == extended[i];
      }
    }
  }
}
