/** The auth slice: the signed-in user and token, a loading flag, the last error, and the sign-up request shape. */
module AuthSlice {
  import opened Wrappers
  import opened Values

  /** The user record the backend returns; `version` is the document's `__v` counter. */
  datatype User = User(id: string, fullName: string, name: string, email: string, role: string,
                       createdAt: string, updatedAt: string, version: int)

  datatype AuthResponse = AuthResponse(user: User, token: string)

  /** The sign-up form's fields, in the form's own naming. */
  datatype SignUpForm = SignUpForm(fullName: string, name: string, email: string, password: string)

  /** The sign-up body the backend expects; `full_name` is the only renamed field. */
  datatype SignUpRequest = SignUpRequest(full_name: string, name: string, email: string, password: string)

  /** The sign-up thunk's body: `fullName` becomes `full_name`, the rest pass through. */
  function ToSignUpRequest(f: SignUpForm): (r: SignUpRequest)
    ensures r.full_name == f.fullName && r.name == f.name && r.email == f.email && r.password == f.password
  {
    SignUpRequest(f.fullName, f.name, f.email, f.password)
  }

  /** The mapping's inverse: reading a sign-up body back as the form. */
  function FromSignUpRequest(q: SignUpRequest): SignUpForm {
    SignUpForm(q.full_name, q.name, q.email, q.password)
  }

  /** The mapping loses nothing: both round trips are the identity. */
  lemma SignUpRoundTrip(f: SignUpForm, q: SignUpRequest)
    ensures FromSignUpRequest(ToSignUpRequest(f)) == f
    ensures ToSignUpRequest(FromSignUpRequest(q)) == q
  {
  }

  /** The slice's state. `error` is `VNull` when there is none. */
  class AuthStore {
    var user: Option<User>
    var token: Option<string>
    var isLoading: bool
    var error: Value
    var isAuthenticated: bool

    constructor ()
      ensures user == None && token == None && !isLoading && error == VNull && !isAuthenticated
    {
      user := None;
      token := None;
      isLoading := false;
      error := VNull;
      isAuthenticated := false;
    }

    /** Signed in: a user and a token are present. */
    predicate SignedIn()
      reads this
    {
      isAuthenticated && user.Some? && token.Some?
    }

    /** Logging out forgets the user, the token and the error; the loading flag is untouched. */
    method Logout()
      modifies this
      ensures user == None && token == None && !isAuthenticated && error == VNull
      ensures isLoading == old(isLoading)
    {
      user := None;
      token := None;
      isAuthenticated := false;
      error := VNull;
    }

    method ClearError()
      modifies this
      ensures error == VNull
      ensures user == old(user) && token == old(token) && isLoading == old(isLoading)
      ensures isAuthenticated == old(isAuthenticated)
    {
      error := VNull;
    }

    /** Stores the response's user and token and authenticates. */
    method SetCredentials(payload: AuthResponse)
      modifies this
      ensures user == Some(payload.user) && token == Some(payload.token) && isAuthenticated && SignedIn()
      ensures isLoading == old(isLoading) && error == old(error)
    {
      user := Some(payload.user);
      token := Some(payload.token);
      isAuthenticated := true;
    }

    /** Sign-in or sign-up starts: loading, no error. The same reducer serves both. */
    method Pending()
      modifies this
      ensures isLoading && error == VNull
      ensures user == old(user) && token == old(token) && isAuthenticated == old(isAuthenticated)
    {
      isLoading := true;
      error := VNull;
    }

    /** Sign-in or sign-up succeeded: not loading, the response's user and token, authenticated. */
    method Fulfilled(payload: AuthResponse)
      modifies this
      ensures !isLoading && user == Some(payload.user) && token == Some(payload.token) && isAuthenticated
      ensures SignedIn() && error == old(error)
    {
      isLoading := false;
      user := Some(payload.user);
      token := Some(payload.token);
      isAuthenticated := true;
    }

    /** Sign-in or sign-up failed: not loading, the message stored, the user and token kept. */
    method Rejected(message: Value)
      modifies this
      ensures !isLoading && error == message
      ensures user == old(user) && token == old(token) && isAuthenticated == old(isAuthenticated)
    {
      isLoading := false;
      error := message;
    }
  }
}
