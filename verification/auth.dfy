/**
 * The mock authentication hook: any non-empty email and password sign in
 * (or sign up) as a fixed demo user.
 */
module Auth {
  import opened Wrappers

  datatype DemoUser = DemoUser(id: string, email: string, name: string, createdAt: string)

  datatype AuthState = AuthState(user: Option<DemoUser>)

  const InitialAuth := AuthState(None)

  /** The shared body of `signIn` and `signUp`; `now` is the creation time text. */
  function Attempt(s: AuthState, email: string, password: string, now: string, failure: string)
    : (r: (AuthState, Result<DemoUser, string>))
    ensures r.1.Ok? <==> email != "" && password != ""
    ensures r.1.Ok? ==> r.1.value == DemoUser("1", email, "Demo User", now) && r.0 == AuthState(Some(r.1.value))
    ensures r.1.Err? ==> r.1.error == failure && r.0 == s
  {
    if email != "" && password != "" then
      var u := DemoUser("1", email, "Demo User", now);
      (AuthState(Some(u)), Ok(u))
    else (s, Err(failure))
  }

  function SignIn(s: AuthState, email: string, password: string, now: string): (r: (AuthState, Result<DemoUser, string>))
    ensures r.1.Ok? <==> email != "" && password != ""
    ensures r.1.Err? ==> r.1.error == "Invalid credentials" && r.0 == s
    ensures r.1.Ok? ==> r.0.user == Some(r.1.value) && r.1.value.id == "1" && r.1.value.email == email
  {
    Attempt(s, email, password, now, "Invalid credentials")
  }

  function SignUp(s: AuthState, email: string, password: string, now: string): (r: (AuthState, Result<DemoUser, string>))
    ensures r.1.Ok? <==> email != "" && password != ""
    ensures r.1.Err? ==> r.1.error == "Sign up failed" && r.0 == s
    ensures r.1.Ok? ==> r.0.user == Some(r.1.value) && r.1.value.id == "1" && r.1.value.email == email
  {
    Attempt(s, email, password, now, "Sign up failed")
  }

  /** Signing up and signing in differ only in the failure message. */
  lemma SignUpLikeSignIn(s: AuthState, email: string, password: string, now: string)
    ensures SignUp(s, email, password, now).0 == SignIn(s, email, password, now).0
    ensures SignIn(s, email, password, now).1.Ok? ==> SignUp(s, email, password, now).1 == SignIn(s, email, password, now).1
  {
  }
}
