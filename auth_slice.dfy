/** The mobile client's session store (`mobile/src/store/authSlice.ts`):
    the signed-in user and token, a loading flag and an error text,
    changed in place by the reducers of the `signup`, `login` and `logout`
    requests and by `clearError`. Saving and removing the token in device
    storage happens inside the requests and is not part of this model. */
module AuthSlice {
  import opened Wrappers
  import opened AuthMiddleware

  const SignupFailed: string := "Signup failed"
  const LoginFailed: string := "Login failed"

  /** What a successful signup or login answers with. */
  datatype AuthResponse = AuthResponse(user: RequestUser, token: string)

  class AuthState {
    var user: Option<RequestUser>
    var token: Option<string>
    var isLoading: bool
    var error: Option<string>

    /** A user is held exactly when a token is, a shown error is never
        empty, and no error is shown while a request is in flight. */
    predicate Valid()
      reads this
    {
      && (user.Some? <==> token.Some?)
      && (error.Some? ==> error.value != [])
      && (isLoading ==> error.None?)
    }

    predicate SignedIn()
      reads this
    {
      user.Some?
    }

    /** `initialState`. */
    constructor ()
      ensures Valid() && !SignedIn()
      ensures user.None? && token.None? && !isLoading && error.None?
    {
      user := None;
      token := None;
      isLoading := false;
      error := None;
    }

    method ClearError()
      requires Valid()
      modifies this
      ensures Valid()
      ensures error.None?
      ensures user == old(user) && token == old(token) && isLoading == old(isLoading)
    {
      error := None;
    }

    /** `signup.pending` and `login.pending`. */
    method Pending()
      requires Valid()
      modifies this
      ensures Valid()
      ensures isLoading && error.None?
      ensures user == old(user) && token == old(token)
    {
      isLoading := true;
      error := None;
    }

    /** `signup.fulfilled` and `login.fulfilled`: the session comes from
        the response. */
    method Fulfilled(payload: AuthResponse)
      requires Valid()
      modifies this
      ensures Valid() && SignedIn()
      ensures user == Some(payload.user) && token == Some(payload.token)
      ensures !isLoading && error.None?
    {
      isLoading := false;
      user := Some(payload.user);
      token := Some(payload.token);
      error := None;
    }

    /** `signup.rejected` and `login.rejected`: the session is kept and
        the message, or the request's fallback, is shown. */
    method Rejected(message: Option<string>, fallback: string)
      requires Valid()
      requires fallback == SignupFailed || fallback == LoginFailed
      modifies this
      ensures Valid()
      ensures user == old(user) && token == old(token) && !isLoading
      ensures error == Some(TextOr(message, fallback))
    {
      isLoading := false;
      error := Some(TextOr(message, fallback));
    }

    /** `logout.fulfilled`: the session and the error are cleared; the
        loading flag is left as it was. */
    method LogoutFulfilled()
      requires Valid()
      modifies this
      ensures Valid() && !SignedIn()
      ensures user.None? && token.None? && error.None?
      ensures isLoading == old(isLoading)
    {
      user := None;
      token := None;
      error := None;
    }
  }

  /** A login that goes through signs the user in whatever came before. */
  method LoginRoundTrip(state: AuthState, payload: AuthResponse)
    requires state.Valid()
    modifies state
    ensures state.Valid() && state.SignedIn()
    ensures state.user == Some(payload.user) && state.token == Some(payload.token)
    ensures !state.isLoading && state.error.None?
  {
    state.Pending();
    state.Fulfilled(payload);
  }

  /** A failed login keeps whatever session there was and shows a
      non-empty error. */
  method LoginFails(state: AuthState, message: Option<string>)
    requires state.Valid()
    modifies state
    ensures state.Valid()
    ensures state.user == old(state.user) && state.token == old(state.token)
    ensures state.error.Some? && state.error.value != []
  {
    state.Pending();
    state.Rejected(message, LoginFailed);
  }
}
