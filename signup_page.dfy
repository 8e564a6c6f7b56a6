/**
 * The sign-up form's submit handler: two checks on the password fields, a
 * display name derived from the email, the call to sign-up, and the
 * redirect to the login page once sign-up reports no error.
 */
module SignupPage {
  import opened Wrappers
  import opened Passwords
  import opened UsersStore
  import AuthProvider

  const EmptyPasswordMessage := "Passwords field can't be empty"
  const MismatchMessage := "Passwords must match"
  const FallbackName := "New User"
  const LoginRoute := "/auth/login"

  /**
   * `email.split("@")[0]`: the text before the first `@`, or the whole
   * email when there is none.
   */
  function UserPart(email: string): (r: string)
    ensures r <= email
    ensures '@' !in r
    ensures |r| < |email| ==> email[|r|] == '@'
  {
    if email == [] || email[0] == '@' then [] else [email[0]] + UserPart(email[1..])
  }

  /** `email.split("@")[0] || "New User"`: an empty user part falls back to a fixed name. */
  function DefaultName(email: string): string {
    var part := UserPart(email);
    if part == "" then FallbackName else part
  }

  /** The user part is the whole email exactly when the email has no `@`. */
  lemma {:induction false} UserPartWhole(email: string)
    ensures UserPart(email) == email <==> '@' !in email
  {
    if email != [] && email[0] != '@' {
      UserPartWhole(email[1..]);
      assert email == [email[0]] + email[1..];
    }
  }

  /**
   * The default name is never empty; it is the fixed fallback exactly when
   * the user part is empty (an empty email, or one starting with `@`) or is
   * itself the text "New User".
   */
  lemma DefaultNameCases(email: string)
    ensures DefaultName(email) != ""
    ensures DefaultName(email) == FallbackName <==> UserPart(email) in {"", FallbackName}
    ensures email == "" || email[0] == '@' ==> DefaultName(email) == FallbackName
    ensures email != "" && '@' !in email ==> DefaultName(email) == email
  {
    UserPartWhole(email);
  }

  /** What the handler does: show an error and stop, or call sign-up with these arguments. */
  datatype Decision = Reject(message: string) | Submit(name: string, email: string, password: string)

  /**
   * handleSignUp: the empty check runs before the match check, and only
   * when both pass is sign-up called, with the derived name and the email
   * and password as typed.
   */
  function HandleSignUp(email: string, password: string, confirmPassword: string): (d: Decision)
    ensures d.Reject? <==> password == "" || confirmPassword == "" || password != confirmPassword
    ensures password == "" || confirmPassword == "" ==> d == Reject(EmptyPasswordMessage)
    ensures password != "" && confirmPassword != "" && password != confirmPassword ==> d == Reject(MismatchMessage)
    ensures d.Submit? ==> d.email == email && d.password == password == confirmPassword && d.password != ""
    ensures d.Submit? ==> d.name == DefaultName(email) && d.name != ""
  {
    if password == "" || confirmPassword == "" then Reject(EmptyPasswordMessage)
    else if password != confirmPassword then Reject(MismatchMessage)
    else
      DefaultNameCases(email);
      Submit(DefaultName(email), email, password)
  }

  /** The `onSuccess` callback: push the login route exactly when the response carries no error. */
  function RedirectAfter(response: AuthProvider.SignUpResponse): (route: Option<string>)
    ensures route.Some? <==> response.error.None?
    ensures route.Some? ==> route.value == LoginRoute
  {
    if response.error.None? then Some(LoginRoute) else None
  }

  /**
   * The whole submit: the handler's checks, the sign-up call, and the
   * redirect. The page moves on to the login page exactly when the password
   * fields agreed, the password was strong, and the insert of the new row
   * went through; that row carries the derived name and the typed email,
   * which no earlier row had. Registering never signs anyone in: the
   * session storage is left as it was.
   */
  method SubmitSignUp(p: AuthProvider.Provider, email: string, password: string, confirmPassword: string,
                      salt: string, defaults: AuthProvider.StoreDefaults, fault: Option<StoreError>)
    returns (d: Decision, route: Option<string>)
    requires p.Valid()
    modifies p
    ensures p.Valid()
    ensures d == HandleSignUp(email, password, confirmPassword)
    ensures d.Reject? ==> route == None && p.users == old(p.users)
    ensures var row := AuthProvider.NewRow(DefaultName(email), email,
                                           p.bcrypt.hash(password, AuthProvider.BcryptCost, salt), defaults);
            && (route.Some? <==> d.Submit? && IsStrong(password) && Insert(old(p.users), row, fault).Success?)
            && (route.Some? ==> p.users == old(p.users) + [row])
    ensures route.Some? ==>
              && route.value == LoginRoute
              && password == confirmPassword
              && (forall r :: r in old(p.users) ==> r.email != email)
    ensures route.None? ==> p.users == old(p.users)
    ensures p.storage == old(p.storage)
  {
    d := HandleSignUp(email, password, confirmPassword);
    if d.Reject? {
      return d, None;
    }
    var row := AuthProvider.NewRow(d.name, d.email, p.bcrypt.hash(d.password, AuthProvider.BcryptCost, salt), defaults);
    ghost var before := p.users;
    var response := p.SignUp(d.name, d.email, d.password, salt, defaults, fault);
    route := RedirectAfter(response);
    if route.Some? {
      forall r | r in before
        ensures r.email != email
      {
        var k :| 0 <= k < |before| && before[k] == r;
      }
    }
  }
}
