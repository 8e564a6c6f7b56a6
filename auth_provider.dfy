/**
 * The credential and session provider: registration into the users table,
 * sign-in by email and password, sign-out, the session read back from
 * localStorage, the current user re-fetched from the table, and the access
 * token derived from the session.
 *
 * bcrypt is a pair of functions handed to the provider; the only thing the
 * model knows of them is that a password always matches its own hash. The
 * salt bcrypt draws, the columns the store fills in, and every store fault
 * are parameters of the operations.
 */
module AuthProvider {
  import opened Wrappers
  import opened Passwords
  import opened UsersStore
  import opened SessionStorage

  /** A user as returned to callers: every column except the password hash. */
  datatype User = User(
    id: string,
    name: string,
    email: string,
    isAdmin: bool,
    profilePic: Option<string>,
    createdAt: string,
    updatedAt: string)

  datatype UserSession = UserSession(userId: string, email: string, name: Option<string>)

  datatype ApiError = ApiError(message: string)

  /** signUp hands back the inserted row as the store returns it, hash included. */
  datatype SignUpResponse = SignUpResponse(user: Option<UserRow>, error: Option<ApiError>)
  datatype AuthResponse = AuthResponse(user: Option<User>, session: Option<UserSession>, error: Option<ApiError>)
  datatype UserResponse = UserResponse(user: Option<User>, error: Option<ApiError>)
  datatype SessionResponse = SessionResponse(session: Option<UserSession>, error: Option<ApiError>)
  datatype SignOutResponse = SignOutResponse(error: Option<ApiError>)

  const WeakPasswordMessage :=
    "Password must be at least 8 characters long and include uppercase, lowercase, number, and special character."
  const EmailExistsMessage := "Email already exists."
  const RegistrationFailedMessage := "Failed to register user."
  const InvalidCredentialsMessage := "Invalid credentials."
  const SessionInvalidMessage := "User not found or session invalid."

  /** The cost factor signUp passes to bcrypt. */
  const BcryptCost: nat := 10

  /** bcrypt's `hash(password, cost)` (with the salt it draws made explicit) and `compare(password, hash)`. */
  datatype Bcrypt = Bcrypt(hash: (string, nat, string) -> string, compare: (string, string) -> bool) {
    /** A password matches every hash made from it. */
    ghost predicate RoundTrips() {
      forall p, cost, salt :: compare(p, hash(p, cost, salt))
    }
  }

  /** The columns of a new row that the store fills in itself. */
  datatype StoreDefaults = StoreDefaults(id: string, profilePic: Option<string>, createdAt: string, updatedAt: string)

  /** The row signUp inserts: the caller's name and email, the hash, and `is_admin = false`. */
  function NewRow(name: string, email: string, hashed: string, d: StoreDefaults): UserRow {
    UserRow(d.id, name, email, hashed, false, d.profilePic, d.createdAt, d.updatedAt)
  }

  /** The row with its password column dropped. */
  function WithoutPassword(row: UserRow): User {
    User(row.id, row.name, row.email, row.isAdmin, row.profilePic, row.createdAt, row.updatedAt)
  }

  /**
   * The message signUp reports for a failed insert: a unique violation is
   * an existing email, and any other error keeps its own message, with a
   * fixed fallback when that message is empty. It is never empty.
   */
  function RegistrationError(e: StoreError): (message: string)
    ensures message != ""
    ensures e.code == UniqueViolation ==> message == EmailExistsMessage
    ensures e.code != UniqueViolation && e.message != "" ==> message == e.message
    ensures e.code != UniqueViolation && e.message == "" ==> message == RegistrationFailedMessage
  {
    if e.code == UniqueViolation then EmailExistsMessage
    else if e.message != "" then e.message
    else RegistrationFailedMessage
  }

  /**
   * getSession's lookup of the display name (`.eq("id", userId).single()`).
   * It is issued whether or not the key is stored; a null filter value
   * matches no row.
   */
  function NameLookup(rows: seq<UserRow>, userId: Option<string>, fault: Option<StoreError>): (r: Lookup)
    ensures fault.Some? ==> r == Failed(fault.value)
    ensures r.Found? ==> userId == Some(r.row.id) && r.row in rows
  {
    if fault.Some? then Failed(fault.value)
    else if userId.None? then NoSingleRow
    else SelectSingle(rows, Id, userId.value, None)
  }

  /** `data?.name`: the name when the lookup found a row, otherwise undefined. */
  function SessionName(lookup: Lookup): Option<string> {
    if lookup.Found? then Some(lookup.row.name) else None
  }

  /** `session?.userId ?? null` */
  function AccessToken(session: Option<UserSession>): (token: Option<string>)
    ensures token.Some? <==> session.Some?
    ensures token.Some? ==> token.value == session.value.userId
  {
    if session.Some? then Some(session.value.userId) else None
  }

  class Provider {
    /** The browser's localStorage. */
    var storage: Storage
    /** The `users` table. */
    var users: seq<UserRow>
    /** `typeof window !== "undefined"`: the code runs in a browser, not on the server. */
    const inBrowser: bool
    const bcrypt: Bcrypt

    ghost predicate Valid()
      reads this
    {
      bcrypt.RoundTrips() && Unique(users)
    }

    /** The identity getSession reports: none on the server, else what localStorage holds. */
    function CurrentIdentity(): Option<(string, string)>
      reads this
    {
      if inBrowser then StoredIdentity(storage) else None
    }

    constructor (inBrowser: bool, bcrypt: Bcrypt, storage: Storage, users: seq<UserRow>)
      requires bcrypt.RoundTrips() && Unique(users)
      ensures Valid()
      ensures this.inBrowser == inBrowser && this.bcrypt == bcrypt
      ensures this.storage == storage && this.users == users
    {
      this.inBrowser := inBrowser;
      this.bcrypt := bcrypt;
      this.storage := storage;
      this.users := users;
    }

    /**
     * signUp: a weak password is refused before anything else happens;
     * otherwise the hashed password is inserted with `is_admin = false`.
     * Registration never touches localStorage.
     */
    method SignUp(name: string, email: string, password: string, salt: string,
                  defaults: StoreDefaults, fault: Option<StoreError>) returns (r: SignUpResponse)
      requires Valid()
      modifies this`users
      ensures Valid()
      ensures storage == old(storage)
      ensures !IsStrong(password) ==>
                r == SignUpResponse(None, Some(ApiError(WeakPasswordMessage))) && users == old(users)
      ensures IsStrong(password) ==>
                var row := NewRow(name, email, bcrypt.hash(password, BcryptCost, salt), defaults);
                match Insert(old(users), row, fault)
                case Success(table) => users == table && r == SignUpResponse(Some(row), None)
                case Failure(e) =>
                  users == old(users) && r == SignUpResponse(None, Some(ApiError(RegistrationError(e))))
    {
      RegexMatchesIffStrong(password);
      if !RegexMatches(password) {
        return SignUpResponse(None, Some(ApiError(WeakPasswordMessage)));
      }
      var hashed := bcrypt.hash(password, BcryptCost, salt);
      var row := NewRow(name, email, hashed, defaults);
      var inserted := Insert(users, row, fault);
      match inserted
      case Failure(e) =>
        return SignUpResponse(None, Some(ApiError(RegistrationError(e))));
      case Success(table) =>
        InsertKeepsUnique(users, row, fault);
        users := table;
        return SignUpResponse(Some(row), None);
    }

    /**
     * signIn: looks the email up, compares the password with the stored
     * hash, and in a browser records the session. Every failure gives the
     * same response, so a caller cannot tell an unknown email from a wrong
     * password or a store error.
     */
    method SignIn(email: string, password: string, fault: Option<StoreError>) returns (r: AuthResponse)
      requires Valid()
      modifies this`storage
      ensures Valid()
      ensures var lookup := SelectSingle(users, Email, email, fault);
              if lookup.Found? && bcrypt.compare(password, lookup.row.password) then
                && r == AuthResponse(Some(WithoutPassword(lookup.row)),
                                     Some(UserSession(lookup.row.id, lookup.row.email, None)), None)
                && storage == if inBrowser then SignedIn(old(storage), lookup.row.id, lookup.row.email)
                              else old(storage)
              else
                r == AuthResponse(None, None, Some(ApiError(InvalidCredentialsMessage))) && storage == old(storage)
    {
      var lookup := SelectSingle(users, Email, email, fault);
      if !lookup.Found? {
        return AuthResponse(None, None, Some(ApiError(InvalidCredentialsMessage)));
      }
      var row := lookup.row;
      var isPasswordValid := bcrypt.compare(password, row.password);
      if !isPasswordValid {
        return AuthResponse(None, None, Some(ApiError(InvalidCredentialsMessage)));
      }
      if inBrowser {
        storage := storage[UserIdKey := row.id];
        storage := storage[UserEmailKey := row.email];
      }
      r := AuthResponse(Some(WithoutPassword(row)), Some(UserSession(row.id, row.email, None)), None);
    }

    /** signOut: in a browser both session keys are removed; it never reports an error. */
    method SignOut() returns (r: SignOutResponse)
      requires Valid()
      modifies this`storage
      ensures Valid()
      ensures r == SignOutResponse(None)
      ensures storage == if inBrowser then Cleared(old(storage)) else old(storage)
      ensures CurrentIdentity() == None
    {
      if inBrowser {
        storage := storage - {UserIdKey};
        storage := storage - {UserEmailKey};
        ClearedReadsNothing(old(storage));
      }
      r := SignOutResponse(None);
    }

    /**
     * getSession: reports the stored identity when both keys hold a
     * non-empty value, with the display name when the name lookup found the
     * row. The lookup's error is ignored: it only costs the name.
     */
    method GetSession(nameFault: Option<StoreError>) returns (r: SessionResponse)
      requires Valid()
      ensures r.error == None
      ensures r.session.Some? <==> CurrentIdentity().Some?
      ensures r.session.Some? ==>
                && r.session.value.userId == CurrentIdentity().value.0
                && r.session.value.email == CurrentIdentity().value.1
                && r.session.value.userId != "" && r.session.value.email != ""
      ensures r.session.Some? && nameFault.None? &&
              (exists row :: row in users && row.id == r.session.value.userId) ==>
                r.session.value.name.Some?
      ensures r.session.Some? && r.session.value.name.Some? ==>
                nameFault.None? &&
                exists row :: row in users && row.id == r.session.value.userId &&
                              row.name == r.session.value.name.value
    {
      if inBrowser {
        var userId := GetItem(storage, UserIdKey);
        var userEmail := GetItem(storage, UserEmailKey);
        var lookup := NameLookup(users, userId, nameFault);
        if Truthy(userId) && Truthy(userEmail) {
          forall row | row in users && row.id == userId.value && nameFault.None?
            ensures lookup.Found?
          {
            SelectFindsStored(users, Id, row);
          }
          return SessionResponse(Some(UserSession(userId.value, userEmail.value, SessionName(lookup))), None);
        }
      }
      return SessionResponse(None, None);
    }

    /**
     * getUser: no session is not an error. A session whose user can no
     * longer be fetched is signed out and reported invalid; otherwise the
     * fetched row is returned without its password.
     */
    method GetUser(nameFault: Option<StoreError>, userFault: Option<StoreError>) returns (r: UserResponse)
      requires Valid()
      modifies this`storage
      ensures Valid()
      ensures old(CurrentIdentity()).None? ==> r == UserResponse(None, None) && storage == old(storage)
      ensures old(CurrentIdentity()).Some? ==>
                var lookup := SelectSingle(users, Id, old(CurrentIdentity()).value.0, userFault);
                if lookup.Found? then
                  r == UserResponse(Some(WithoutPassword(lookup.row)), None) && storage == old(storage)
                else
                  && r == UserResponse(None, Some(ApiError(SessionInvalidMessage)))
                  && storage == Cleared(old(storage))
                  && CurrentIdentity() == None
    {
      var s := GetSession(nameFault);
      if s.error.Some? {
        return UserResponse(None, s.error);
      }
      if s.session.None? || s.session.value.userId == "" {
        return UserResponse(None, None);
      }
      var lookup := SelectSingle(users, Id, s.session.value.userId, userFault);
      if !lookup.Found? {
        var _ := SignOut();
        return UserResponse(None, Some(ApiError(SessionInvalidMessage)));
      }
      return UserResponse(Some(WithoutPassword(lookup.row)), None);
    }

    /** getSupabaseAccessToken: the session's user id, or null without a session. */
    method GetSupabaseAccessToken(nameFault: Option<StoreError>) returns (token: Option<string>)
      requires Valid()
      ensures token.Some? <==> CurrentIdentity().Some?
      ensures token.Some? ==> token.value == CurrentIdentity().value.0 && token.value != ""
    {
      var s := GetSession(nameFault);
      token := AccessToken(s.session);
    }
  }
}
