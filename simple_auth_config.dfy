/** The JWT-session NextAuth configuration: the same first-login
    provisioning as the database-session configuration, run only for a
    Google sign-in that carries an email, and a session callback that writes
    the user's id onto the session object. */
module SimpleAuthConfig {
  import opened Wrappers
  import opened JsObject
  import opened SqlParams
  import opened AuthConfig

  /** The `signIn` callback: provisions only for Google with a truthy
      email; any other sign-in is let through with nothing written. */
  method SignIn(store: AuthStore, u: SignInUser, provider: Option<string>, newId: string, failAt: Option<Step>)
    returns (ok: bool)
    modifies store
    ensures !(provider == Some("google") && Truthy(u.email)) ==>
              ok && store.users == old(store.users) && store.profiles == old(store.profiles)
              && store.workspaces == old(store.workspaces)
    ensures store.accounts == old(store.accounts) && store.sessions == old(store.sessions)
    ensures store.verificationTokens == old(store.verificationTokens)
    ensures provider == Some("google") && Truthy(u.email) && !Completes(failAt, LookUpUser) ==>
              !ok && store.users == old(store.users) && store.profiles == old(store.profiles)
              && store.workspaces == old(store.workspaces)
    ensures provider == Some("google") && Truthy(u.email) && Completes(failAt, LookUpUser)
            && Where(old(store.users), "email", u.email) != [] ==>
              ok && store.users == old(store.users) && store.profiles == old(store.profiles)
              && store.workspaces == old(store.workspaces)
    ensures provider == Some("google") && Truthy(u.email) && Completes(failAt, LookUpUser)
            && Where(old(store.users), "email", u.email) == [] ==>
              ok == failAt.None?
              && store.users == old(store.users) + (if Completes(failAt, InsertUser) then [UserRow(newId, u)] else [])
              && store.profiles == old(store.profiles)
                   + (if Completes(failAt, InsertProfile) then [ProfileRow(newId, u)] else [])
              && store.workspaces == old(store.workspaces)
                   + (if Completes(failAt, InsertWorkspace) then [WorkspaceRow(newId)] else [])
  {
    if provider == Some("google") && Truthy(u.email) {
      ok := store.Provision(u, newId, failAt);
    } else {
      ok := true;
    }
  }

  /** The session object NextAuth passes to the callback. */
  class SessionObject {
    var user: Option<Row>

    constructor(user0: Option<Row>)
      ensures user == user0
    {
      user := user0;
    }
  }

  /** The `session` callback: the user's id is written onto the session's
      user when a user row has its email; the session is otherwise left as
      it is. */
  method SessionCallback(store: AuthStore, session: SessionObject) returns (r: SessionObject)
    modifies session
    ensures r == session
    ensures session.user == AttachUserId(old(session.user), store.users)
  {
    session.user := AttachUserId(session.user, store.users);
    r := session;
  }
}
