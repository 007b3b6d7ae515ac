/** Google sign-in: verify a Google ID token, find the local user by the
    token's email or sign a new one up, and issue a first-party token pair. */
module GoogleSecurity {
  import opened Wrappers
  import opened Entities

  /** The claims of a verified Google ID token that sign-in reads: the email
      and the optional `given_name` and `family_name` claims. */
  datatype Payload = Payload(email: string, givenName: Option<string>, familyName: Option<string>)

  /** What the Google ID-token verifier does with the raw token: it returns a
      token with its payload, returns null (token rejected), or throws a
      security or I/O exception with a message. */
  datatype Verification =
    | Verified(payload: Payload)
    | Rejected
    | Raised(detail: string)

  /** The JWT tool: the two token builders, known only through their arguments. */
  datatype TokenTool = TokenTool(
    createAccessToken: (string, Role) -> string,
    createRefreshToken: string -> string)

  /** What a successful sign-in returns to the caller. */
  datatype SuccessSignIn = SuccessSignIn(accessToken: string, refreshToken: string, name: Option<string>)

  /** The IllegalArgumentException that authenticate throws. */
  datatype AuthError = IllegalArgument(message: string)

  /** Stand-in for the text of the BAD_GOOGLE_TOKEN error message. */
  const BadGoogleToken: string := "Bad google token"

  /** The stored users whose email is `email`. */
  function UsersWithEmail(users: map<string, User>, email: string): set<string>
  {
    set e | e in users && users[e].email == email
  }

  /** The user that a first Google sign-in creates from the token's claims. */
  function SignUpUser(p: Payload, registeredAt: Timestamp, visitedAt: Timestamp): User
  {
    User(p.email, p.givenName, p.familyName, RoleUser, Activated, registeredAt, visitedAt)
  }

  /** The token pair and display name issued for user record `u`. */
  function SignInAs(tool: TokenTool, u: User): SuccessSignIn
  {
    SuccessSignIn(tool.createAccessToken(u.email, u.role), tool.createRefreshToken(u.email), u.firstName)
  }

  /** The outcome of one authenticate call and the user store after it. */
  datatype Step = Step(result: Result<SuccessSignIn, AuthError>, users: map<string, User>)

  /** One authenticate call on the user store `users`, as a function: the
      outcome and the new store. `registeredAt` and `visitedAt` are the two
      clock readings taken while building a new user. */
  function AuthenticateStep(users: map<string, User>, tool: TokenTool, v: Verification,
                            registeredAt: Timestamp, visitedAt: Timestamp): (s: Step)
    // fails exactly when the token was not verified, and then touches nothing
    ensures s.result.Failure? <==> !v.Verified?
    ensures s.result.Failure? ==> s.users == users && BadGoogleToken <= s.result.error.message
    // on success the tokens and the name all come from the record stored under the email
    ensures v.Verified? ==>
      v.payload.email in s.users && s.result == Success(SignInAs(tool, s.users[v.payload.email]))
    // at most the payload's email is added, and no existing record changes
    ensures s.users.Keys == users.Keys + (if v.Verified? then {v.payload.email} else {})
    ensures forall e | e in users :: s.users[e] == users[e]
    ensures KeyedByEmail(users) ==> KeyedByEmail(s.users)
  {
    match v
    case Rejected => Step(Failure(IllegalArgument(BadGoogleToken)), users)
    case Raised(detail) => Step(Failure(IllegalArgument(BadGoogleToken + ". " + detail)), users)
    case Verified(p) =>
      match FindByEmail(users, p.email)
      case Some(byEmail) => Step(Success(SignInAs(tool, byEmail)), users)
      case None =>
        var user := SignUpUser(p, registeredAt, visitedAt);
        Step(Success(SignInAs(tool, user)), users[p.email := user])
  }

  /** A rejected token is the plain BAD_GOOGLE_TOKEN error and the store is untouched. */
  lemma RejectedTokenChangesNothing(users: map<string, User>, tool: TokenTool, registeredAt: Timestamp, visitedAt: Timestamp)
    ensures AuthenticateStep(users, tool, Rejected, registeredAt, visitedAt)
         == Step(Failure(IllegalArgument(BadGoogleToken)), users)
  {
  }

  /** A verifier exception is an error whose message starts with BAD_GOOGLE_TOKEN
      and carries the exception's message; no user is created. */
  lemma VerifierErrorChangesNothing(users: map<string, User>, tool: TokenTool, detail: string,
                                    registeredAt: Timestamp, visitedAt: Timestamp)
    ensures var s := AuthenticateStep(users, tool, Raised(detail), registeredAt, visitedAt);
      s.users == users && s.result.Failure? &&
      s.result.error.message == BadGoogleToken + ". " + detail
  {
  }

  /** Sign-in of a known email: the store is unchanged, the access token is
      built from the stored email and role, the refresh token from the stored
      email, and the display name is the stored first name. */
  lemma ExistingUserSignIn(users: map<string, User>, tool: TokenTool, p: Payload,
                           registeredAt: Timestamp, visitedAt: Timestamp)
    requires p.email in users
    ensures var s := AuthenticateStep(users, tool, Verified(p), registeredAt, visitedAt);
      var stored := users[p.email];
      s.users == users &&
      s.result == Success(SuccessSignIn(
        tool.createAccessToken(stored.email, stored.role),
        tool.createRefreshToken(stored.email),
        stored.firstName))
  {
  }

  /** Sign-up of an unknown email: exactly one user is added, built from the
      payload with ROLE_USER, ACTIVATED and the two clock readings, and the
      tokens and display name come from the payload. */
  lemma NewUserSignUp(users: map<string, User>, tool: TokenTool, p: Payload,
                      registeredAt: Timestamp, visitedAt: Timestamp)
    requires p.email !in users
    ensures var s := AuthenticateStep(users, tool, Verified(p), registeredAt, visitedAt);
      |s.users| == |users| + 1 &&
      p.email in s.users &&
      s.users[p.email] == User(p.email, p.givenName, p.familyName, RoleUser, Activated, registeredAt, visitedAt) &&
      s.result == Success(SuccessSignIn(
        tool.createAccessToken(p.email, RoleUser),
        tool.createRefreshToken(p.email),
        p.givenName))
  {
  }

  /** In a store keyed by email, a stored email belongs to exactly one user. */
  lemma OneUserPerEmail(users: map<string, User>, email: string)
    requires KeyedByEmail(users) && email in users
    ensures UsersWithEmail(users, email) == {email}
    ensures |UsersWithEmail(users, email)| == 1
  {
  }

  /** Two successful sign-ins with the same email: the second takes the
      existing-user branch, so the store does not change again, exactly one
      user has that email, and both calls build their tokens and display name
      from the same stored record. */
  lemma SecondSignInIsIdempotent(users: map<string, User>, tool: TokenTool,
                                 p1: Payload, p2: Payload,
                                 t1: Timestamp, t2: Timestamp, t3: Timestamp, t4: Timestamp)
    requires KeyedByEmail(users)
    requires p1.email == p2.email
    ensures var first := AuthenticateStep(users, tool, Verified(p1), t1, t2);
      var second := AuthenticateStep(first.users, tool, Verified(p2), t3, t4);
      second.users == first.users &&
      p1.email in first.users &&
      first.result == Success(SignInAs(tool, first.users[p1.email])) &&
      second.result == Success(SignInAs(tool, first.users[p1.email])) &&
      |UsersWithEmail(second.users, p1.email)| == 1
  {
    var first := AuthenticateStep(users, tool, Verified(p1), t1, t2);
    OneUserPerEmail(first.users, p1.email);
  }

  /** One authenticate request: the verifier's answer and the two clock readings. */
  datatype SignInRequest = SignInRequest(verification: Verification, registeredAt: Timestamp, visitedAt: Timestamp)

  /** The user store after the requests are authenticated one after another. */
  function AuthenticateAll(users: map<string, User>, tool: TokenTool, requests: seq<SignInRequest>): map<string, User>
    decreases |requests|
  {
    if requests == [] then users
    else
      var q := requests[0];
      AuthenticateAll(AuthenticateStep(users, tool, q.verification, q.registeredAt, q.visitedAt).users, tool, requests[1..])
  }

  /** The emails of the requests whose token was verified. */
  function VerifiedEmails(requests: seq<SignInRequest>): set<string>
  {
    set i | 0 <= i < |requests| && requests[i].verification.Verified? :: requests[i].verification.payload.email
  }

  /** Any run of sign-ins only adds the verified emails to the store, never
      changes a record already there, and keeps every email to one user. */
  lemma {:induction false} AuthenticateAllOnlyAdds(users: map<string, User>, tool: TokenTool, requests: seq<SignInRequest>)
    ensures var after := AuthenticateAll(users, tool, requests);
      after.Keys == users.Keys + VerifiedEmails(requests) &&
      (forall e | e in users :: after[e] == users[e]) &&
      (KeyedByEmail(users) ==> KeyedByEmail(after))
    decreases |requests|
  {
    if requests != [] {
      var q := requests[0];
      var next := AuthenticateStep(users, tool, q.verification, q.registeredAt, q.visitedAt).users;
      AuthenticateAllOnlyAdds(next, tool, requests[1..]);
      assert VerifiedEmails(requests) ==
        VerifiedEmails(requests[1..]) + (if q.verification.Verified? then {q.verification.payload.email} else {}) by {
        forall e | e in VerifiedEmails(requests)
          ensures e in VerifiedEmails(requests[1..]) || (q.verification.Verified? && e == q.verification.payload.email)
        {
          var i :| 0 <= i < |requests| && requests[i].verification.Verified? && requests[i].verification.payload.email == e;
          if i > 0 { assert requests[1..][i - 1] == requests[i]; }
        }
        forall e | e in VerifiedEmails(requests[1..]) ensures e in VerifiedEmails(requests) {
          var j :| 0 <= j < |requests[1..]| && requests[1..][j].verification.Verified? && requests[1..][j].verification.payload.email == e;
          assert requests[j + 1] == requests[1..][j];
        }
        if q.verification.Verified? {
          assert requests[0] == q;
        }
      }
    }
  }

  /** The sign-in service over the shared user store. */
  class GoogleSecurityService {
    /** The user store behind the user service, keyed by email. */
    var users: map<string, User>
    const tokenTool: TokenTool

    predicate Valid()
      reads this
    {
      KeyedByEmail(users)
    }

    constructor (users: map<string, User>, tokenTool: TokenTool)
      requires KeyedByEmail(users)
      ensures Valid() && this.users == users && this.tokenTool == tokenTool
    {
      this.users := users;
      this.tokenTool := tokenTool;
    }

    /** Authenticates with a Google ID token whose verification gave `verification`. */
    method Authenticate(verification: Verification, registeredAt: Timestamp, visitedAt: Timestamp)
      returns (r: Result<SuccessSignIn, AuthError>)
      requires Valid()
      modifies this
      ensures Valid()
      ensures Step(r, users) == AuthenticateStep(old(users), tokenTool, verification, registeredAt, visitedAt)
    {
      match verification {
        case Rejected =>
          r := Failure(IllegalArgument(BadGoogleToken));
        case Raised(detail) =>
          r := Failure(IllegalArgument(BadGoogleToken + ". " + detail));
        case Verified(payload) =>
          var byEmail := FindByEmail(users, payload.email);
          if byEmail.Some? {
            r := Success(SignInAs(tokenTool, byEmail.value));
          } else {
            var user := SignUpUser(payload, registeredAt, visitedAt);
            users := users[user.email := user];
            r := Success(SignInAs(tokenTool, user));
          }
      }
    }
  }
}
