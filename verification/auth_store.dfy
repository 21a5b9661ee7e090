/** The authentication store: the signed-in user's name and bearer token;
    an empty token means nobody is signed in. */
module Auth {

  class AuthStore {
    var username: string
    var authToken: string

    constructor ()
      ensures username == "" && authToken == ""
    {
      username := "";
      authToken := "";
    }

    /** `setCredentials`: both fields replaced by the arguments. */
    method SetCredentials(u: string, t: string)
      modifies this
      ensures username == u && authToken == t
    {
      username := u;
      authToken := t;
    }

    /** `clearCredentials`: back to the initial, signed-out state. */
    method ClearCredentials()
      modifies this
      ensures username == "" && authToken == ""
    {
      username := "";
      authToken := "";
    }
  }

  /** Signing in and then out, even twice, leaves a store just like a new
      one. */
  method SignInThenOut(u: string, t: string) returns (username: string, authToken: string)
    ensures username == "" && authToken == ""
  {
    var store := new AuthStore();
    store.SetCredentials(u, t);
    store.ClearCredentials();
    store.ClearCredentials();
    username, authToken := store.username, store.authToken;
  }
}
