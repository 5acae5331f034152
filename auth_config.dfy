/** The NextAuth configuration backed by the application's own database:
    the Google sign-in callback that provisions a new user with a profile
    and a home workspace, the session and token callbacks, and the adapter
    that keeps users, accounts, sessions and verification tokens in tables.
    Each table is a sequence of rows; a query's failure is a parameter. */
module AuthConfig {
  import opened Wrappers
  import opened JsText
  import opened JsObject
  import opened Seqs
  import opened SqlParams
  import opened AnthropicModels
  import opened ModelRegistry

  type Row = Obj<Value>

  /** The fields of the signing-in user that sign-in reads. */
  datatype SignInUser = SignInUser(name: Value, email: Value, image: Value)

  /** The queries of the sign-in callback, in the order they run. */
  datatype Step = LookUpUser | InsertUser | InsertProfile | InsertWorkspace

  function StepIndex(s: Step): nat {
    match s
    case LookUpUser => 0
    case InsertUser => 1
    case InsertProfile => 2
    case InsertWorkspace => 3
  }

  /** Step `s` takes effect: no query throws, or the first query that
      throws comes after it. */
  predicate Completes(failAt: Option<Step>, s: Step) {
    failAt.None? || StepIndex(s) < StepIndex(failAt.value)
  }

  /** What a statement the database refuses gives back, or its result. */
  datatype Reply<T> = Rejected | Returned(value: T)

  /** `rows[0] || null`. */
  function First(rows: seq<Row>): (r: Option<Row>)
    ensures r.None? <==> rows == []
    ensures r.Some? ==> r.value == rows[0]
  {
    if rows == [] then None else Some(rows[0])
  }

  /** `user${id.toString().slice(0, 8)}`. */
  function Username(id: string): (u: string)
    ensures 4 <= |u| <= 12 && u[..4] == "user"
    ensures u[4..] == id[..if |id| < 8 then |id| else 8]
  {
    "user" + id[..if |id| < 8 then |id| else 8]
  }

  /** Two new ids that agree on their first eight characters get the same
      username: the name is not unique by construction. */
  lemma {:induction false} UsernameKeepsOnlyPrefix(id1: string, id2: string)
    requires |id1| >= 8 && |id2| >= 8 && id1[..8] == id2[..8]
    ensures Username(id1) == Username(id2)
  {
  }

  /** `user.name || 'User'`. */
  function DisplayName(name: Value): (v: Value)
    ensures Truthy(v)
    ensures Truthy(name) ==> v == name
    ensures !Truthy(name) ==> v == Str("User")
  {
    if Truthy(name) then name else Str("User")
  }

  /** The user row an insert creates, with `id` the generated key. */
  function UserRow(id: string, u: SignInUser): Row {
    [("id", Str(id)), ("name", u.name), ("email", u.email), ("image", u.image)]
  }

  /** The default profile of a new user. */
  function ProfileRow(id: string, u: SignInUser): Row {
    [("user_id", Str(id)), ("display_name", DisplayName(u.name)), ("username", Str(Username(id))),
     ("bio", Str("")), ("profile_context", Str("")), ("use_azure_openai", Bool(false)),
     ("has_onboarded", Bool(false))]
  }

  const HomeWorkspaceModel := "gpt-4-1106-preview"

  /** The home workspace of a new user. */
  function WorkspaceRow(id: string): Row {
    [("user_id", Str(id)), ("is_home", Bool(true)), ("name", Str("Home")),
     ("default_context_length", Int(4096)), ("default_model", Str(HomeWorkspaceModel)),
     ("default_prompt", Str("You are a friendly, helpful AI assistant.")),
     ("default_temperature", Num(0.5)), ("description", Str("My home workspace.")),
     ("embeddings_provider", Str("openai")), ("include_profile_context", Bool(true)),
     ("include_workspace_instructions", Bool(true)), ("instructions", Str(""))]
  }

  /** The new profile's display name is the user's name, or "User" when
      the name is empty or missing. */
  lemma {:induction false} ProvisionedDisplayName(id: string, u: SignInUser)
    ensures Get(ProfileRow(id, u), "display_name") == Some(if Truthy(u.name) then u.name else Str("User"))
  {
    GetFirstAt(ProfileRow(id, u), 1);
  }

  /** The new profile's username is "user" and the id's first eight characters. */
  lemma {:induction false} ProvisionedUsername(id: string, u: SignInUser)
    ensures Get(ProfileRow(id, u), "username") == Some(Str("user" + id[..if |id| < 8 then |id| else 8]))
  {
    GetFirstAt(ProfileRow(id, u), 2);
  }

  /** The new profile and the home workspace both belong to the new user. */
  lemma {:induction false} ProvisionedOwner(id: string, u: SignInUser)
    ensures Get(ProfileRow(id, u), "user_id") == Some(Str(id))
    ensures Get(WorkspaceRow(id), "user_id") == Some(Str(id))
  {
    GetFirstAt(ProfileRow(id, u), 0);
    GetFirstAt(WorkspaceRow(id), 0);
  }

  /** The new profile is not onboarded. */
  lemma {:induction false} ProvisionedNotOnboarded(id: string, u: SignInUser)
    ensures Get(ProfileRow(id, u), "has_onboarded") == Some(Bool(false))
  {
    GetFirstAt(ProfileRow(id, u), 6);
  }

  /** The provisioned workspace is the user's home. */
  lemma {:induction false} ProvisionedHome(id: string)
    ensures Get(WorkspaceRow(id), "is_home") == Some(Bool(true))
  {
    GetFirstAt(WorkspaceRow(id), 1);
  }

  /** The home workspace's model is not a listed Claude model, so a chat
      started there resolves to the configured default. */
  lemma {:induction false} HomeWorkspaceModelResolves(id: string, defaultId: string)
    ensures Get(WorkspaceRow(id), "default_model") == Some(Str(HomeWorkspaceModel))
    ensures ResolveClaudeModelId(Some(HomeWorkspaceModel), defaultId) == defaultId
  {
    GetFirstAt(WorkspaceRow(id), 4);
    WorkspaceDefaultResolvesToDefault(defaultId);
  }

  /** The columns `linkAccount` stores, with the account field each is read from. */
  const AccountColumns: seq<(string, string)> := [
    ("user_id", "userId"), ("type", "type"), ("provider", "provider"),
    ("provider_account_id", "providerAccountId"), ("refresh_token", "refresh_token"),
    ("access_token", "access_token"), ("expires_at", "expires_at"), ("token_type", "token_type"),
    ("scope", "scope"), ("id_token", "id_token"), ("session_state", "session_state")]

  /** The account row `linkAccount` inserts; a missing field is NULL. */
  function AccountRow(account: Row): (row: Row)
    ensures |row| == |AccountColumns|
    ensures forall i :: 0 <= i < |row| ==>
              row[i] == (AccountColumns[i].0, Get(account, AccountColumns[i].1).GetOr(Null))
  {
    seq(|AccountColumns|, i requires 0 <= i < |AccountColumns| =>
          (AccountColumns[i].0, Get(account, AccountColumns[i].1).GetOr(Null)))
  }

  /** The session row `createSession` inserts. */
  function SessionRow(sessionToken: Value, userId: Value, expires: Value): Row {
    [("session_token", sessionToken), ("user_id", userId), ("expires", expires)]
  }

  /** The verification token row, which is also what is returned. */
  function TokenRow(identifier: Value, token: Value, expires: Value): Row {
    [("identifier", identifier), ("token", token), ("expires", expires)]
  }

  /** `WHERE identifier = $1 AND token = $2`. */
  predicate TokenMatches(row: Row, identifier: Value, token: Value) {
    Matches(row, "identifier", identifier) && Matches(row, "token", token)
  }

  /** `WHERE provider = $1 AND provider_account_id = $2`. */
  predicate AccountMatches(row: Row, provider: Value, providerAccountId: Value) {
    Matches(row, "provider", provider) && Matches(row, "provider_account_id", providerAccountId)
  }

  /** `u.id = a.user_id` (NULL never joins). */
  predicate Owns(user: Row, other: Row, column: string) {
    Get(user, "id").Some? && Get(user, "id").value != Null && Get(other, column) == Get(user, "id")
  }

  /** The first user owning an account with that provider key. */
  function UserByAccount(users: seq<Row>, accounts: seq<Row>, provider: Value, providerAccountId: Value): (r: Option<Row>)
    ensures r.Some? ==> r.value in users
                        && exists a :: a in accounts && AccountMatches(a, provider, providerAccountId) && Owns(r.value, a, "user_id")
    ensures r.None? ==> forall u, a :: u in users && a in accounts && AccountMatches(a, provider, providerAccountId)
                                       ==> !Owns(u, a, "user_id")
  {
    if users == [] then None
    else if exists a :: a in accounts && AccountMatches(a, provider, providerAccountId) && Owns(users[0], a, "user_id")
    then Some(users[0])
    else UserByAccount(users[1..], accounts, provider, providerAccountId)
  }

  /** The first row of the `sessions JOIN users` selection for a token. */
  function FirstSessionJoin(sessions: seq<Row>, users: seq<Row>, sessionToken: Value): (r: Option<(Row, Row)>)
    ensures r.Some? ==> r.value.0 in sessions && r.value.1 in users
                        && Matches(r.value.0, "session_token", sessionToken) && Owns(r.value.1, r.value.0, "user_id")
    ensures r.None? ==> forall s, u :: s in sessions && u in users && Matches(s, "session_token", sessionToken)
                                       ==> !Owns(u, s, "user_id")
  {
    if sessions == [] then None
    else
      var owners := Filter(users, (u: Row) => Owns(u, sessions[0], "user_id"));
      if Matches(sessions[0], "session_token", sessionToken) && owners != [] then
        assert owners[0] in owners;
        Some((sessions[0], owners[0]))
      else FirstSessionJoin(sessions[1..], users, sessionToken)
  }

  /** What `getSessionAndUser` returns. */
  datatype SessionAndUser = SessionAndUser(sessionToken: Value, userId: Value, expires: Value, user: Row)

  /** Splitting a joined row: `s.*, u.*` merges the two rows (a user column
      replaces a session column of the same name), then the three session
      columns are taken out and the rest is the user. */
  function SplitJoined(session: Row, user: Row): (r: SessionAndUser)
    ensures forall k :: k in Keys(r.user) <==> k !in {"session_token", "user_id", "expires"}
                                               && (k in Keys(session) || k in Keys(user))
  {
    var merged := Assign(session, user);
    AssignKeys(session, user);
    SessionAndUser(Get(merged, "session_token").GetOr(Null), Get(merged, "user_id").GetOr(Null),
                   Get(merged, "expires").GetOr(Null), Omit(merged, {"session_token", "user_id", "expires"}))
  }

  /** The session half reads the session's own columns when the user row
      has none of those names, and every user column reaches the user half. */
  lemma {:induction false} SplitJoinedColumns(session: Row, user: Row, k: string)
    requires DistinctKeys(user)
    requires forall c :: c in {"session_token", "user_id", "expires"} ==> c !in Keys(user)
    ensures SplitJoined(session, user).sessionToken == Get(session, "session_token").GetOr(Null)
    ensures SplitJoined(session, user).userId == Get(session, "user_id").GetOr(Null)
    ensures SplitJoined(session, user).expires == Get(session, "expires").GetOr(Null)
    ensures k in Keys(user) ==> Get(SplitJoined(session, user).user, k) == Get(user, k)
  {
    AssignGet(session, user, "session_token");
    AssignGet(session, user, "user_id");
    AssignGet(session, user, "expires");
    AssignGet(session, user, k);
    if k in Keys(user) {
      OmitGet(Assign(session, user), {"session_token", "user_id", "expires"}, k);
    }
  }

  /** The session callback: when the session's user has a truthy email
      that a user row carries, that row's id is written onto the session's
      user; otherwise the session is returned as it is. */
  function AttachUserId(user: Option<Row>, users: seq<Row>): Option<Row> {
    if user.Some? && Get(user.value, "email").Some? && Truthy(Get(user.value, "email").value) then
      var found := Where(users, "email", Get(user.value, "email").value);
      if found != [] then Some(Set(user.value, "id", Get(found[0], "id").GetOr(Null))) else user
    else user
  }

  /** Only `id` can change, and it changes exactly when a row has that email. */
  lemma {:induction false} AttachUserIdSpec(user: Option<Row>, users: seq<Row>, k: string)
    ensures AttachUserId(user, users).Some? == user.Some?
    ensures user.Some? && k != "id" ==> Get(AttachUserId(user, users).value, k) == Get(user.value, k)
    ensures user.Some? && AttachUserId(user, users) != user ==>
              exists row :: row in users && Get(row, "email") == Get(user.value, "email")
                            && Get(AttachUserId(user, users).value, "id") == Some(Get(row, "id").GetOr(Null))
    ensures (user.None? || Get(user.value, "email").None? || !Truthy(Get(user.value, "email").value)
             || Where(users, "email", Get(user.value, "email").value) == [])
            ==> AttachUserId(user, users) == user
  {
    if user.Some? && Get(user.value, "email").Some? && Truthy(Get(user.value, "email").value) {
      var found := Where(users, "email", Get(user.value, "email").value);
      if found != [] {
        assert found[0] in found;
        GetSet(user.value, "id", Get(found[0], "id").GetOr(Null), k);
        GetSet(user.value, "id", Get(found[0], "id").GetOr(Null), "id");
      }
    }
  }

  /** The `jwt` callback: a signing-in user's id is copied onto the token. */
  function Jwt(token: Row, user: Option<Row>): (r: Row)
    ensures user.Some? ==> Get(r, "id") == Some(Get(user.value, "id").GetOr(Null))
    ensures forall k :: k != "id" ==> Get(r, k) == Get(token, k)
    ensures user.None? ==> r == token
  {
    if user.Some? then
      var r := Set(token, "id", Get(user.value, "id").GetOr(Null));
      GetSet(token, "id", Get(user.value, "id").GetOr(Null), "id");
      forall k | k != "id" ensures Get(r, k) == Get(token, k) {
        GetSet(token, "id", Get(user.value, "id").GetOr(Null), k);
      }
      r
    else token
  }

  /** The tables the configuration reads and writes. */
  class AuthStore {
    var users: seq<Row>
    var accounts: seq<Row>
    var sessions: seq<Row>
    var verificationTokens: seq<Row>
    var profiles: seq<Row>
    var workspaces: seq<Row>

    constructor(users0: seq<Row>, accounts0: seq<Row>, sessions0: seq<Row>, tokens0: seq<Row>,
                profiles0: seq<Row>, workspaces0: seq<Row>)
      ensures users == users0 && accounts == accounts0 && sessions == sessions0
      ensures verificationTokens == tokens0 && profiles == profiles0 && workspaces == workspaces0
    {
      users := users0;
      accounts := accounts0;
      sessions := sessions0;
      verificationTokens := tokens0;
      profiles := profiles0;
      workspaces := workspaces0;
    }

    /** First-login provisioning, shared by both configurations: look the
        email up; when no user has it, insert the user, then the profile,
        then the home workspace. `newId` is the generated user id and
        `failAt` the first query that throws, if any. A throw ends the run
        with false and keeps whatever was inserted before it. */
    method Provision(u: SignInUser, newId: string, failAt: Option<Step>) returns (ok: bool)
      modifies this
      ensures accounts == old(accounts) && sessions == old(sessions) && verificationTokens == old(verificationTokens)
      ensures !Completes(failAt, LookUpUser) ==>
                !ok && users == old(users) && profiles == old(profiles) && workspaces == old(workspaces)
      ensures Completes(failAt, LookUpUser) && Where(old(users), "email", u.email) != [] ==>
                ok && users == old(users) && profiles == old(profiles) && workspaces == old(workspaces)
      ensures Completes(failAt, LookUpUser) && Where(old(users), "email", u.email) == [] ==>
                ok == failAt.None?
                && users == old(users) + (if Completes(failAt, InsertUser) then [UserRow(newId, u)] else [])
                && profiles == old(profiles) + (if Completes(failAt, InsertProfile) then [ProfileRow(newId, u)] else [])
                && workspaces == old(workspaces) + (if Completes(failAt, InsertWorkspace) then [WorkspaceRow(newId)] else [])
    {
      if failAt == Some(LookUpUser) {
        return false;
      }
      var existing := Where(users, "email", u.email);
      if existing == [] {
        if failAt == Some(InsertUser) {
          return false;
        }
        users := users + [UserRow(newId, u)];
        if failAt == Some(InsertProfile) {
          return false;
        }
        profiles := profiles + [ProfileRow(newId, u)];
        if failAt == Some(InsertWorkspace) {
          return false;
        }
        workspaces := workspaces + [WorkspaceRow(newId)];
      }
      return true;
    }

    /** The `signIn` callback: only a Google sign-in provisions; any other
        provider (or none) is let through with nothing written. */
    method SignIn(u: SignInUser, provider: Option<string>, newId: string, failAt: Option<Step>) returns (ok: bool)
      modifies this
      ensures provider != Some("google") ==>
                ok && users == old(users) && profiles == old(profiles) && workspaces == old(workspaces)
      ensures accounts == old(accounts) && sessions == old(sessions) && verificationTokens == old(verificationTokens)
      ensures provider == Some("google") && Completes(failAt, LookUpUser) && Where(old(users), "email", u.email) == [] ==>
                ok == failAt.None?
                && users == old(users) + (if Completes(failAt, InsertUser) then [UserRow(newId, u)] else [])
                && profiles == old(profiles) + (if Completes(failAt, InsertProfile) then [ProfileRow(newId, u)] else [])
                && workspaces == old(workspaces) + (if Completes(failAt, InsertWorkspace) then [WorkspaceRow(newId)] else [])
      ensures provider == Some("google") && Completes(failAt, LookUpUser) && Where(old(users), "email", u.email) != [] ==>
                ok && users == old(users) && profiles == old(profiles) && workspaces == old(workspaces)
      ensures provider == Some("google") && !Completes(failAt, LookUpUser) ==>
                !ok && users == old(users) && profiles == old(profiles) && workspaces == old(workspaces)
    {
      if provider != Some("google") {
        return true;
      }
      ok := Provision(u, newId, failAt);
    }

    /** `createUser`: inserts the user under the generated id and returns it. */
    method CreateUser(name: Value, email: Value, image: Value, newId: string) returns (row: Row)
      modifies this
      ensures row == UserRow(newId, SignInUser(name, email, image))
      ensures users == old(users) + [row]
      ensures accounts == old(accounts) && sessions == old(sessions) && verificationTokens == old(verificationTokens)
      ensures profiles == old(profiles) && workspaces == old(workspaces)
    {
      row := UserRow(newId, SignInUser(name, email, image));
      users := users + [row];
    }

    /** `getUser`: the first user with that id, or null. */
    function GetUser(id: Value): (r: Option<Row>)
      reads this
      ensures r.Some? <==> exists row :: row in users && Matches(row, "id", id)
      ensures r.Some? ==> r.value in users && Get(r.value, "id") == Some(id)
    {
      var found := Where(users, "id", id);
      if found != [] then assert found[0] in found; First(found) else None
    }

    /** `getUserByEmail`: the first user with that email, or null. */
    function GetUserByEmail(email: Value): (r: Option<Row>)
      reads this
      ensures r.Some? <==> exists row :: row in users && Matches(row, "email", email)
      ensures r.Some? ==> r.value in users && Get(r.value, "email") == Some(email)
    {
      var found := Where(users, "email", email);
      if found != [] then assert found[0] in found; First(found) else None
    }

    /** `getUserByAccount`: a user owning an account with that provider
        key, or null when no account joins a user. */
    function GetUserByAccount(provider: Value, providerAccountId: Value): (r: Option<Row>)
      reads this
      ensures r.Some? ==> r.value in users
                          && exists a :: a in accounts && AccountMatches(a, provider, providerAccountId)
                                         && Owns(r.value, a, "user_id")
      ensures r.None? <==> forall u, a :: (u in users && a in accounts && AccountMatches(a, provider, providerAccountId))
                                            ==> !Owns(u, a, "user_id")
    {
      UserByAccount(users, accounts, provider, providerAccountId)
    }

    /** `updateUser({ id, ...user })`: with no field besides `id` the
        statement is malformed and refused; otherwise the user with that id
        takes the fields and the timestamp, and the first updated row (or
        undefined) is returned. */
    method UpdateUser(payload: Row, now: Value) returns (r: Reply<Option<Row>>)
      modifies this
      ensures var key := Get(payload, "id").GetOr(Null);
              if UpdateFields(payload, {"id"}) == [] then r.Rejected? && users == old(users)
              else users == UpdateRows(old(users), "id", key, payload, {"id"}, now)
                   && r == Returned(match First(Where(old(users), "id", key))
                                    case None => None
                                    case Some(row) => Some(ApplyUpdate(row, payload, {"id"}, now)))
      ensures accounts == old(accounts) && sessions == old(sessions) && verificationTokens == old(verificationTokens)
      ensures profiles == old(profiles) && workspaces == old(workspaces)
    {
      var key := Get(payload, "id").GetOr(Null);
      if UpdateFields(payload, {"id"}) == [] {
        return Rejected;
      }
      var selected := First(Where(users, "id", key));
      users := UpdateRows(users, "id", key, payload, {"id"}, now);
      r := Returned(match selected case None => None case Some(row) => Some(ApplyUpdate(row, payload, {"id"}, now)));
    }

    /** `deleteUser`: removes the users with that id. */
    method DeleteUser(id: Value)
      modifies this
      ensures users == Filter(old(users), (row: Row) => !Matches(row, "id", id))
      ensures accounts == old(accounts) && sessions == old(sessions) && verificationTokens == old(verificationTokens)
      ensures profiles == old(profiles) && workspaces == old(workspaces)
    {
      users := Filter(users, (row: Row) => !Matches(row, "id", id));
    }

    /** `linkAccount`: inserts the account's eleven columns. */
    method LinkAccount(account: Row)
      modifies this
      ensures accounts == old(accounts) + [AccountRow(account)]
      ensures users == old(users) && sessions == old(sessions) && verificationTokens == old(verificationTokens)
      ensures profiles == old(profiles) && workspaces == old(workspaces)
    {
      accounts := accounts + [AccountRow(account)];
    }

    /** `unlinkAccount`: removes the accounts with that provider key. */
    method UnlinkAccount(provider: Value, providerAccountId: Value)
      modifies this
      ensures accounts == Filter(old(accounts), (a: Row) => !AccountMatches(a, provider, providerAccountId))
      ensures users == old(users) && sessions == old(sessions) && verificationTokens == old(verificationTokens)
      ensures profiles == old(profiles) && workspaces == old(workspaces)
    {
      accounts := Filter(accounts, (a: Row) => !AccountMatches(a, provider, providerAccountId));
    }

    /** `createSession`: inserts the session and returns it. */
    method CreateSession(sessionToken: Value, userId: Value, expires: Value) returns (row: Row)
      modifies this
      ensures row == SessionRow(sessionToken, userId, expires)
      ensures sessions == old(sessions) + [row]
      ensures users == old(users) && accounts == old(accounts) && verificationTokens == old(verificationTokens)
      ensures profiles == old(profiles) && workspaces == old(workspaces)
    {
      row := SessionRow(sessionToken, userId, expires);
      sessions := sessions + [row];
    }

    /** `getSessionAndUser`: the session with that token joined with its
        user, split into the session fields and the user; null when no
        session with that token has a user. */
    function GetSessionAndUser(sessionToken: Value): (r: Option<SessionAndUser>)
      reads this
      ensures r.None? <==> forall s, u :: s in sessions && u in users && Matches(s, "session_token", sessionToken)
                                          ==> !Owns(u, s, "user_id")
      ensures r.Some? ==> exists s, u :: s in sessions && u in users && Matches(s, "session_token", sessionToken)
                                         && Owns(u, s, "user_id") && r.value == SplitJoined(s, u)
    {
      match FirstSessionJoin(sessions, users, sessionToken)
      case None => None
      case Some((s, u)) => Some(SplitJoined(s, u))
    }

    /** `updateSession({ sessionToken, ...session })`: as `updateUser`,
        keyed by `session_token`. */
    method UpdateSession(payload: Row, now: Value) returns (r: Reply<Option<Row>>)
      modifies this
      ensures var key := Get(payload, "sessionToken").GetOr(Null);
              if UpdateFields(payload, {"sessionToken"}) == [] then r.Rejected? && sessions == old(sessions)
              else sessions == UpdateRows(old(sessions), "session_token", key, payload, {"sessionToken"}, now)
                   && r == Returned(match First(Where(old(sessions), "session_token", key))
                                    case None => None
                                    case Some(row) => Some(ApplyUpdate(row, payload, {"sessionToken"}, now)))
      ensures users == old(users) && accounts == old(accounts) && verificationTokens == old(verificationTokens)
      ensures profiles == old(profiles) && workspaces == old(workspaces)
    {
      var key := Get(payload, "sessionToken").GetOr(Null);
      if UpdateFields(payload, {"sessionToken"}) == [] {
        return Rejected;
      }
      var selected := First(Where(sessions, "session_token", key));
      sessions := UpdateRows(sessions, "session_token", key, payload, {"sessionToken"}, now);
      r := Returned(match selected case None => None
                    case Some(row) => Some(ApplyUpdate(row, payload, {"sessionToken"}, now)));
    }

    /** `deleteSession`: removes the sessions with that token. */
    method DeleteSession(sessionToken: Value)
      modifies this
      ensures sessions == Filter(old(sessions), (s: Row) => !Matches(s, "session_token", sessionToken))
      ensures users == old(users) && accounts == old(accounts) && verificationTokens == old(verificationTokens)
      ensures profiles == old(profiles) && workspaces == old(workspaces)
    {
      sessions := Filter(sessions, (s: Row) => !Matches(s, "session_token", sessionToken));
    }

    /** `createVerificationToken`: stores the token and returns it. */
    method CreateVerificationToken(identifier: Value, token: Value, expires: Value) returns (row: Row)
      modifies this
      ensures row == TokenRow(identifier, token, expires)
      ensures verificationTokens == old(verificationTokens) + [row]
      ensures users == old(users) && accounts == old(accounts) && sessions == old(sessions)
      ensures profiles == old(profiles) && workspaces == old(workspaces)
    {
      row := TokenRow(identifier, token, expires);
      verificationTokens := verificationTokens + [row];
    }

    /** `useVerificationToken`: deletes every matching token and returns
        the first of them, or null. */
    method UseVerificationToken(identifier: Value, token: Value) returns (r: Option<Row>)
      modifies this
      ensures r == First(Filter(old(verificationTokens), (t: Row) => TokenMatches(t, identifier, token)))
      ensures verificationTokens == Filter(old(verificationTokens), (t: Row) => !TokenMatches(t, identifier, token))
      ensures users == old(users) && accounts == old(accounts) && sessions == old(sessions)
      ensures profiles == old(profiles) && workspaces == old(workspaces)
    {
      r := First(Filter(verificationTokens, (t: Row) => TokenMatches(t, identifier, token)));
      verificationTokens := Filter(verificationTokens, (t: Row) => !TokenMatches(t, identifier, token));
    }
  }

  /** A token is good for one use: after it is used, nothing matches it. */
  lemma {:induction false} TokenIsSingleUse(tokens: seq<Row>, identifier: Value, token: Value)
    ensures First(Filter(Filter(tokens, (t: Row) => !TokenMatches(t, identifier, token)),
                         (t: Row) => TokenMatches(t, identifier, token))).None?
  {
    var rest := Filter(tokens, (t: Row) => !TokenMatches(t, identifier, token));
    FilterKeepsNone(rest, (t: Row) => TokenMatches(t, identifier, token));
  }

  /** A token just created (with a non-null identifier and token) is found
      by its first use when no earlier row matches it. */
  lemma {:induction false} CreatedTokenIsUsable(tokens: seq<Row>, identifier: Value, token: Value, expires: Value)
    requires identifier != Null && token != Null
    requires forall t :: t in tokens ==> !TokenMatches(t, identifier, token)
    ensures First(Filter(tokens + [TokenRow(identifier, token, expires)],
                         (t: Row) => TokenMatches(t, identifier, token))) == Some(TokenRow(identifier, token, expires))
  {
    var f := (t: Row) => TokenMatches(t, identifier, token);
    FilterAppend(tokens, [TokenRow(identifier, token, expires)], f);
    FilterKeepsNone(tokens, f);
    var row := TokenRow(identifier, token, expires);
    assert [row][1..] == [];
    GetFirstAt(row, 0);
    GetFirstAt(row, 1);
    assert f(row);
    assert Filter([row], f) == [row] + Filter([row][1..], f);
  }

  /** In `updateUser` and `updateSession`, parameter 1 is the row key and
      field i is bound to parameter i + 2 with the payload's value for it. */
  lemma {:induction false} UpdateParamsBind(payload: Row, excluded: set<string>, keyField: string, i: nat)
    requires DistinctKeys(payload) && i < |UpdateFields(payload, excluded)|
    ensures var fields := UpdateFields(payload, excluded);
            var ps := Params(Get(payload, keyField).GetOr(Null), UpdateValues(payload, excluded));
            ps[0] == Get(payload, keyField).GetOr(Null)
            && Get(payload, fields[i]) == Some(ps[(i + 2) - 1])
            && ParseInt(Assignments(fields)[i][|fields[i]| + 4..]) == Some(i + 2)
  {
    var fields := UpdateFields(payload, excluded);
    PlaceholderBinds(fields, Get(payload, keyField).GetOr(Null), UpdateValues(payload, excluded), i);
    ValuesAligned(payload, excluded);
  }
}
