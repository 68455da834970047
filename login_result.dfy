/** `LoginResult` (src/main/java/simpleserver/service/LoginResult.java): the three
    outcomes of a login attempt and the text the request handler reports for them. */
module LoginResults {
  import opened JavaLang

  datatype LoginResult = LoginSuccess | UserNotFound | UserAlreadyLoggedIn

  /** `Enum.name()`: the constant as declared. */
  function Name(r: LoginResult): string {
    match r
    case LoginSuccess => "LOGIN_SUCCESS"
    case UserNotFound => "USER_NOT_FOUND"
    case UserAlreadyLoggedIn => "USER_ALREADY_LOGGED_IN"
  }

  /** `toString()`: the name lower-cased with every '_' turned into a space. */
  function ToString(r: LoginResult): string {
    ReplaceChar(ToLowerCase(Name(r)), '_', ' ')
  }

  /** The three texts, spelled out. */
  lemma LoginResultTexts()
    ensures ToString(LoginSuccess) == "login success"
    ensures ToString(UserNotFound) == "user not found"
    ensures ToString(UserAlreadyLoggedIn) == "user already logged in"
  {
  }

  /** Distinct outcomes are reported with distinct texts. */
  lemma {:induction false} ToStringInjective(a: LoginResult, b: LoginResult)
    requires ToString(a) == ToString(b)
    ensures a == b
  {
    LoginResultTexts();
  }

  /** The texts hold no '_' and no upper-case ASCII letter. */
  lemma ToStringIsLowerWords(r: LoginResult)
    ensures forall i :: 0 <= i < |ToString(r)| ==> ToString(r)[i] != '_' && !('A' <= ToString(r)[i] <= 'Z')
  {
  }
}
