/** The login page: signs the user in through the authentication service and
    keeps the message shown under the form. */
module Login {
  import opened Remote
  import opened Auth

  const HomePath: string := "/"
  const CannotAuthenticateMessage: string := "Cannot authenticate user"

  /** What a successful sign-in resolves with. */
  datatype SuccessLoginResponse = SuccessLoginResponse(token: string)

  class LoginPage {
    const auth: AuthStore
    var errorMsg: string

    constructor (auth: AuthStore)
      ensures this.auth == auth && errorMsg == ""
    {
      this.auth := auth;
      errorMsg := "";
    }

    /** `handleSignIn`: the message is cleared first; on success the
        credentials become the user name and the returned token and the
        answer is true; on failure the message says so, the credentials are
        left alone and the answer is false. */
    method HandleSignIn(username: string, password: string,
                        signIn: (string, string) -> Result<SuccessLoginResponse>) returns (ok: bool)
      modifies this, auth
      ensures ok <==> signIn(username, password).Ok?
      ensures ok ==> auth.username == username && auth.authToken == signIn(username, password).value.token
      ensures ok ==> errorMsg == ""
      ensures !ok ==> errorMsg == CannotAuthenticateMessage
      ensures !ok ==> auth.username == old(auth.username) && auth.authToken == old(auth.authToken)
    {
      errorMsg := "";
      match signIn(username, password)
      case Ok(resp) =>
        auth.SetCredentials(username, resp.token);
        ok := true;
      case Err(_) =>
        errorMsg := CannotAuthenticateMessage;
        ok := false;
    }

    /** The mount effect: someone already signed in is sent to the home page. */
    method OnMount() returns (navigateTo: Option<string>)
      ensures navigateTo.Some? <==> auth.authToken != ""
      ensures navigateTo.Some? ==> navigateTo.value == HomePath
    {
      navigateTo := if auth.authToken != "" then Some(HomePath) else None;
    }
  }
}
