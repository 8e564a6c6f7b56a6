/**
 * Properties that span several calls on one provider: the client's
 * authentication state machine (logged out, logged in, forced logout) and
 * the policies that only show across calls.
 */
module AuthScenarios {
  import opened Wrappers
  import opened Passwords
  import opened UsersStore
  import opened SessionStorage
  import opened AuthProvider

  /**
   * A user registered with a strong password can sign in with it at once,
   * and registration alone does not sign anyone in.
   */
  method RegisterThenSignIn(p: Provider, name: string, email: string, password: string, salt: string,
                            defaults: StoreDefaults)
    returns (up: SignUpResponse, afterSignUp: Storage, login: AuthResponse)
    requires p.Valid()
    requires IsStrong(password)
    requires !Collides(p.users, NewRow(name, email, p.bcrypt.hash(password, BcryptCost, salt), defaults))
    modifies p
    ensures p.Valid()
    ensures up.error == None && up.user.Some? && up.user.value.password == p.bcrypt.hash(password, BcryptCost, salt)
    ensures !up.user.value.isAdmin
    ensures afterSignUp == old(p.storage)
    ensures login.error == None
    ensures login.user == Some(WithoutPassword(up.user.value))
    ensures login.session == Some(UserSession(defaults.id, email, None))
  {
    up := p.SignUp(name, email, password, salt, defaults, None);
    afterSignUp := p.storage;
    var row := up.user.value;
    assert row in p.users;
    SelectFindsStored(p.users, Email, row);
    login := p.SignIn(email, password, None);
  }

  /**
   * After a successful sign-in in a browser, getSession reports the signed-in
   * identity (given a non-empty id and email); after signOut it reports none.
   */
  method SignInSessionSignOut(p: Provider, email: string, password: string, fault: Option<StoreError>,
                              nameFault: Option<StoreError>)
    returns (login: AuthResponse, during: SessionResponse, out: SignOutResponse, after: SessionResponse)
    requires p.Valid() && p.inBrowser
    modifies p
    ensures p.Valid()
    ensures login.error == None ==> login.session.Some?
    ensures login.error == None && login.session.value.userId != "" && login.session.value.email != "" ==>
              && during.session.Some?
              && during.session.value.userId == login.session.value.userId
              && during.session.value.email == login.session.value.email
    ensures out.error == None
    ensures after == SessionResponse(None, None)
  {
    login := p.SignIn(email, password, fault);
    if login.error == None {
      SignedInReadsBack(old(p.storage), login.session.value.userId, login.session.value.email);
    }
    during := p.GetSession(nameFault);
    out := p.SignOut();
    after := p.GetSession(nameFault);
  }

  /** Signing out twice leaves the same storage and the same answer as signing out once. */
  method SignOutTwice(p: Provider) returns (first: SignOutResponse, second: SignOutResponse)
    requires p.Valid()
    modifies p
    ensures first == second == SignOutResponse(None)
    ensures p.storage == if p.inBrowser then Cleared(old(p.storage)) else old(p.storage)
  {
    first := p.SignOut();
    var once := p.storage;
    second := p.SignOut();
    if p.inBrowser {
      ClearedIdempotent(old(p.storage));
    }
    assert p.storage == once;
  }

  /**
   * A session whose user row is gone (deleted behind the provider's back)
   * makes getUser fail with the session-invalid message and leaves the
   * client logged out.
   */
  method StaleSessionForcesSignOut(p: Provider, nameFault: Option<StoreError>)
    returns (r: UserResponse, after: SessionResponse)
    requires p.Valid()
    requires p.CurrentIdentity().Some?
    requires forall row :: row in p.users ==> row.id != p.CurrentIdentity().value.0
    modifies p
    ensures r == UserResponse(None, Some(ApiError(SessionInvalidMessage)))
    ensures after == SessionResponse(None, None)
  {
    r := p.GetUser(nameFault, None);
    after := p.GetSession(nameFault);
  }

  /** Registering a second account under an email already stored is refused as a duplicate. */
  method DuplicateEmailSignUp(p: Provider, existing: UserRow, name: string, password: string, salt: string,
                              defaults: StoreDefaults)
    returns (r: SignUpResponse)
    requires p.Valid()
    requires existing in p.users
    requires IsStrong(password)
    modifies p
    ensures r == SignUpResponse(None, Some(ApiError(EmailExistsMessage)))
    ensures p.users == old(p.users)
  {
    var k :| 0 <= k < |p.users| && p.users[k] == existing;
    assert Collides(p.users, NewRow(name, existing.email, p.bcrypt.hash(password, BcryptCost, salt), defaults));
    r := p.SignUp(name, existing.email, password, salt, defaults, None);
  }

  /**
   * An unknown email, a wrong password for a known one, and a store error
   * get identical answers, and none of them changes the storage.
   */
  method SignInFailuresAgree(p: Provider, known: UserRow, wrong: string, unknownEmail: string, password: string,
                             fault: StoreError)
    returns (a: AuthResponse, b: AuthResponse, c: AuthResponse)
    requires p.Valid()
    requires known in p.users && !p.bcrypt.compare(wrong, known.password)
    requires forall row :: row in p.users ==> row.email != unknownEmail
    modifies p
    ensures a == b == c == AuthResponse(None, None, Some(ApiError(InvalidCredentialsMessage)))
    ensures p.storage == old(p.storage)
  {
    SelectFindsStored(p.users, Email, known);
    a := p.SignIn(known.email, wrong, None);
    b := p.SignIn(unknownEmail, password, None);
    c := p.SignIn(known.email, password, Some(fault));
  }
}
