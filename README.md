# Credential and session core of next-payroll, in Dafny

This project models the authentication provider of the next-payroll web
application (`src/app/api/auth/provider.ts`) and the submit handler of its
sign-up page (`src/app/auth/signup/page.tsx`), and proves what they promise.

The provider is a small state machine over two pieces of state, kept as
fields of the class `AuthProvider.Provider`:

- `storage`: the browser's localStorage, a string map in which sign-in
  writes `user_id` and `user_email` and sign-out removes them;
- `users`: the `users` table, a sequence of rows (id, name, email, password
  hash, `is_admin`, profile picture, timestamps).

The operations are `SignUp`, `SignIn`, `SignOut`, `GetSession`, `GetUser`
and `GetSupabaseAccessToken`. Each is a method whose postcondition gives
its response and the new state exactly. Pure functions in four modules
carry the rules they rely on:

- `Passwords`: the password regular expression, read construct by construct
  and proved equal to the plain rule `IsStrong`;
- `UsersStore`: the table's insert with its unique constraints, and the
  one-row select `.eq(...).single()`;
- `SessionStorage`: the two session keys and JavaScript truthiness;
- `AuthProvider`: the error mapping and the token.

`AuthScenarios` chains calls on one provider to prove the properties that
span several operations:

- registration does not log in, and a registered user can sign in;
- a signed-in session reads back when its id and email are non-empty, and
  sign-out ends it;
- sign-out is idempotent;
- a stale session forces a sign-out;
- a duplicate email is refused;
- every sign-in failure looks the same.

`SignupPage` models the form handler as a decision function, plus the
redirect rule and the whole submit.

Foreign pieces are parameters:

- bcrypt is a pair of function values `hash(password, cost, salt)` and
  `compare(password, hash)`. Of bcrypt, the class invariant demands only
  that a password matches every hash made from it.
- The salt bcrypt draws, the columns the store fills in (id, profile
  picture, timestamps), and a possible fault of every store call are
  arguments of the operations.
- `typeof window !== "undefined"` is the constant field `inBrowser`. On the
  server no storage is written and no session is ever read back.

The model follows the code in these easily misread places:

- getSession ignores the error of its name lookup; it only loses the name
  (provider.ts:152-158).
- getSession tests `userId && userEmail`, so a stored empty string counts
  as no session at all.
- The 8-character minimum counts UTF-16 code units. Two characters outside
  the Basic Multilingual Plane count as four, so a 6-character password can
  pass (`SixAstralCharactersPass`).
- signUp hands back the inserted row as the store returns it, password hash
  included (`.select()` of every column). Only signIn and getUser strip the
  hash.
- The fallback name "New User" is chosen when the part of the email before
  `@` is empty. That part can also literally be "New User", which gives the
  same name.

## Model

| member | source | states |
|---|---|---|
| `Passwords.Utf16Length` | src/app/api/auth/provider.ts:14 | the length the regex measures lies between the number of characters and twice it, and equals it when every character is in the BMP |
| `Passwords.LookaheadWithoutTerminators` | src/app/api/auth/provider.ts:14 | when no line terminator occurs, a `(?=.*C)` lookahead succeeds exactly when some character is in class C |
| `Passwords.RegexMatchesIffStrong` | src/app/api/auth/provider.ts:14-16 | the regex accepts a password iff it has no line terminator, at least 8 code units, and a lower-case letter, an upper-case letter, a digit and a non-alphanumeric character |
| `Passwords.MissingClassIsWeak` | src/app/api/auth/provider.ts:14-16 | a password lacking any of the four character classes is refused whatever its length |
| `Passwords.ShortIsWeak` | src/app/api/auth/provider.ts:14-16 | a password of fewer than 8 BMP characters is refused |
| `Passwords.SixAstralCharactersPass` | src/app/api/auth/provider.ts:14 | "Aa1!" plus two emoji, six characters, is accepted because the emoji count as two code units each |
| `UsersStore.Where` | src/app/api/auth/provider.ts:75-81 | `.eq(column, value)` keeps exactly the rows whose column equals the value, and none when no row has it |
| `UsersStore.SelectSingle` | src/app/api/auth/provider.ts:75-81 | `.single()` reports the call's fault, or a row that is in the table and has the value, or no row when none matches |
| `UsersStore.Insert` | src/app/api/auth/provider.ts:28-37 | insert reports the call's fault, otherwise succeeds iff neither id nor email is taken, appending the row; a refusal carries code 23505 |
| `UsersStore.InsertKeepsUnique` | src/app/api/auth/provider.ts:28-37 | an admitted insert keeps ids and emails unique |
| `UsersStore.WhereUnique` | src/app/api/auth/provider.ts:75-81 | with unique keys, filtering on a stored row's id or email yields that row alone |
| `UsersStore.SelectFindsStored` | src/app/api/auth/provider.ts:75-83 | with unique keys and no fault, the one-row select on a stored row's id or email finds that row |
| `UsersStore.DuplicateEmailRefused` | src/app/api/auth/provider.ts:39-41 | inserting a second row with an email just inserted fails with the unique-violation error |
| `SessionStorage.SignedIn` | src/app/api/auth/provider.ts:92-95 | sign-in's writes set `user_id` and `user_email` (as read back through `GetItem`, the model of `getItem`) and leave every other key as it was |
| `SessionStorage.Cleared` | src/app/api/auth/provider.ts:123-126 | sign-out's removals delete both session keys and leave every other key as it was |
| `SessionStorage.SignedInReadsBack` | src/app/api/auth/provider.ts:158-163 | after sign-in's writes, the stored identity reads back exactly, unless the id or email is empty, which reads back as no session |
| `SessionStorage.ClearedReadsNothing` | src/app/api/auth/provider.ts:124-125 | after sign-out's removals no identity reads back |
| `SessionStorage.ClearedIdempotent` | src/app/api/auth/provider.ts:121-127 | removing the session keys twice leaves the storage as removing them once |
| `SessionStorage.SignInThenOutRestoresOthers` | src/app/api/auth/provider.ts:124-125 | a sign-in followed by a sign-out leaves the storage as a sign-out alone |
| `SessionStorage.SecondSignInWins` | src/app/api/auth/provider.ts:93-94 | a second sign-in overwrites the first (last writer wins) |
| `AuthProvider.RegistrationError` | src/app/api/auth/provider.ts:39-46 | code 23505 gives "Email already exists.", any other error its own message or "Failed to register user." when that is empty; never an empty message |
| `AuthProvider.NameLookup` | src/app/api/auth/provider.ts:152-156 | getSession's name lookup reports its fault, or a stored row with exactly the stored id |
| `AuthProvider.Provider.SignUp` | src/app/api/auth/provider.ts:13-49 | a weak password gives the fixed message and no insert; otherwise the row with `Hash(password)` and `is_admin = false` is inserted and returned, or the mapped error is returned with the table unchanged; storage never changes |
| `AuthProvider.Provider.SignIn` | src/app/api/auth/provider.ts:74-103 | a found row whose hash matches gives the user without password and a session with its id and email, and in a browser writes both keys; every other outcome gives "Invalid credentials." and leaves storage unchanged |
| `AuthProvider.Provider.SignOut` | src/app/api/auth/provider.ts:121-127 | no error; in a browser both keys are removed, and afterwards there is no session |
| `AuthProvider.Provider.GetSession` | src/app/api/auth/provider.ts:147-165 | never an error; a session iff running in a browser with both keys non-empty, carrying exactly the stored id and email, and the name of the row with that id exactly when the lookup found it |
| `AuthProvider.Provider.GetUser` | src/app/api/auth/provider.ts:186-202 | no session gives no user and no error; otherwise the row fetched by the session's id without password, or, when the fetch fails, "User not found or session invalid." with both keys cleared |
| `AuthProvider.Provider.GetSupabaseAccessToken` | src/app/api/auth/provider.ts:219-222 | the token (`AccessToken`, `session?.userId ?? null` at line 221) is the non-empty `user_id` stored for the current session, or null without a session |
| `AuthScenarios.RegisterThenSignIn` | src/app/api/auth/provider.ts:26-37 | registration stores `Hash(password)` with `is_admin = false`, leaves the storage exactly as it was (no log-in), and the same email and password then sign in with the new id |
| `AuthScenarios.SignInSessionSignOut` | src/app/api/auth/provider.ts:92-165 | after a successful browser sign-in getSession reports that id and email when both are non-empty (an empty one reads back as no session); after sign-out it reports none |
| `AuthScenarios.SignOutTwice` | src/app/api/auth/provider.ts:121-127 | two sign-outs give the same response and the same storage as one |
| `AuthScenarios.StaleSessionForcesSignOut` | src/app/api/auth/provider.ts:187-199 | a session whose row is gone makes getUser fail with the session-invalid message, after which getSession reports none |
| `AuthScenarios.DuplicateEmailSignUp` | src/app/api/auth/provider.ts:39-41 | signing up with a stored email gives "Email already exists." and leaves the table unchanged |
| `AuthScenarios.SignInFailuresAgree` | src/app/api/auth/provider.ts:83-90 | unknown email, wrong password and store error give identical responses and leave storage unchanged |
| `SignupPage.UserPart` | src/app/auth/signup/page.tsx:37 | `split("@")[0]` is the longest prefix of the email without `@`: it stops at the first `@` or at the end |
| `SignupPage.UserPartWhole` | src/app/auth/signup/page.tsx:37 | the user part is the whole email exactly when the email contains no `@` |
| `SignupPage.DefaultNameCases` | src/app/auth/signup/page.tsx:37 | the default name is never empty; it is "New User" iff the user part is empty or is "New User"; an email without `@` is its own name |
| `SignupPage.HandleSignUp` | src/app/auth/signup/page.tsx:27-40 | rejects iff a password field is empty (checked first) or the two differ; otherwise submits the derived name with the email and password unchanged |
| `SignupPage.SubmitSignUp` | src/app/auth/signup/page.tsx:24-48 | the page redirects to `/auth/login` (`RedirectAfter`, lines 42-46) exactly when the password fields agreed, the password was strong and the insert of the new row succeeded; that row, with the derived name and the typed email, is then appended to the table and no earlier row had that email; without a redirect the table is unchanged; the session storage is never touched, so signing up does not log in |

## Left out

- The try/catch wrappers of every provider function. They turn runtime
  throws (from bcrypt, the network or localStorage) into messages. No
  operation of the model throws, so getSession never reports an error.
  getUser's `sessionError` branch is kept, but nothing in the model can
  reach it.
- bcrypt itself. Hashing and comparison are function values. The model
  knows only that a password matches every hash made from it. It cannot
  state that the stored hash differs from the raw password.
- The Supabase client and PostgREST. The table is a sequence of rows with
  the unique constraints of `id` and `email`. Column projection is not
  modelled: getUser's select without the password column becomes dropping
  that column. Errors keep only a code and a message. `.single()` with zero
  or several matches is one outcome, `NoSingleRow`.
- Asynchrony and concurrency. Every call is one sequential step.
- UTF-16 strings that contain lone surrogates. A Dafny `string` holds
  Unicode scalar values, so such strings cannot be written. Lengths are
  counted in UTF-16 code units, as the source does.
- Timestamps and store-assigned ids. They are opaque strings passed in with
  the new row.
- `src/app/api/auth/query.ts` (React Query hooks and toasts),
  `src/app/api/auth/types.ts` (interfaces only, mirrored by the datatypes),
  the page's rendering, its state hooks and its show-password toggles, the
  layout and the query-client provider. None of them holds logic of the
  core. The rendered form's `type="email"` and `required` attributes
  (page.tsx:71, 75, 87, 110) make the browser refuse empty fields before
  the handler runs, so the empty-password branch and the "New User"
  fallback cannot be reached from the page itself. That browser-side
  validation is not modelled; `HandleSignUp` models the handler alone,
  for every input it can be given.
- Out-of-band deletion of users has no operation of its own. The stale
  session scenario starts from a table that lacks the session's row.
