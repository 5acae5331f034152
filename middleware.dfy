/** The request middleware: a debug-page gate, then the locale router,
    then a redirect of a signed-in visitor of "/" to the chat of their home
    workspace. The locale router, the session lookup and the workspace query
    are parameters. */
module Middleware {
  import opened Wrappers
  import opened JsText
  import opened Http

  /** Debug pages are served only when the variable is exactly "true". */
  predicate DebugEnabled(env: Option<string>) {
    env == Some("true")
  }

  /** `pathname.replace(/\/+$/, "")`: the path without its trailing run of
      "/". */
  function NormalizePath(path: string): (r: string)
    ensures |r| <= |path| && r == path[..|r|]
    ensures r == [] || r[|r| - 1] != '/'
    ensures forall k :: |r| <= k < |path| ==> path[k] == '/'
    decreases |path|
  {
    if path != [] && path[|path| - 1] == '/' then NormalizePath(path[..|path| - 1]) else path
  }

  /** Normalising a normalised path changes nothing. */
  lemma {:induction false} NormalizeIdempotent(path: string)
    ensures NormalizePath(NormalizePath(path)) == NormalizePath(path)
  {
  }

  /** Trailing slashes never matter: a path with more of them normalises
      the same. */
  lemma {:induction false} TrailingSlashesIgnored(path: string, n: nat)
    ensures NormalizePath(path + seq(n, _ => '/')) == NormalizePath(path)
    decreases n
  {
    if n > 0 {
      var p := path + seq(n, _ => '/');
      assert p[..|p| - 1] == path + seq(n - 1, _ => '/');
      TrailingSlashesIgnored(path, n - 1);
    } else {
      assert path + seq(0, _ => '/') == path;
    }
  }

  /** `normalizedPath === "/debug" || normalizedPath.endsWith("/debug")`. */
  predicate IsDebugPath(path: string) {
    var p := NormalizePath(path);
    p == "/debug" || EndsWith(p, "/debug")
  }

  /** The first test is subsumed by the second: a debug path is one whose
      last segment is "debug". */
  lemma {:induction false} DebugPathIff(path: string)
    ensures IsDebugPath(path) <==> EndsWith(NormalizePath(path), "/debug")
  {
  }

  /** "/x/debug/" and "/debug" are debug paths; "/mydebug" and "/" are not. */
  lemma {:induction false} DebugPathExamples()
    ensures IsDebugPath("/x/debug/") && IsDebugPath("/debug")
    ensures !IsDebugPath("/mydebug") && !IsDebugPath("/")
  {
    assert NormalizePath("/x/debug/") == "/x/debug" by {
      assert "/x/debug/"[..8] == "/x/debug";
    }
    assert "/x/debug"[2..] == "/debug";
    assert NormalizePath("/mydebug") == "/mydebug";
    assert "/mydebug"[2..] != "/debug" by {
      assert "/mydebug"[2..][0] == 'y';
    }
    assert NormalizePath("/") == "" by {
      assert "/"[..0] == "";
    }
  }

  /** What the middleware does. */
  datatype Action = NotFound | Localized | Redirect(path: string) | SessionResponse | PassThrough

  /** `middleware`, given the debug variable, the pathname, whether the
      locale router answered, the session lookup (the signed-in user's id,
      or none; a throw from the client), and the home-workspace query for a
      user (the workspace id when one row is found without error). */
  function Handle(debugEnv: Option<string>, path: string, localized: bool, session: Try<Option<string>>,
                  homeWorkspace: string -> Try<Option<string>>): (r: Action)
    ensures !DebugEnabled(debugEnv) && IsDebugPath(path) ==> r == NotFound
    ensures r.Redirect? ==> path == "/"
  {
    if !DebugEnabled(debugEnv) && IsDebugPath(path) then NotFound
    else if localized then Localized
    else match session
      case Raised(_) => PassThrough
      case Returned(user) =>
        if path == "/" && user.Some? then
          match homeWorkspace(user.value)
          case Returned(Some(id)) => Redirect("/" + id + "/chat")
          case _ => Redirect("/setup")
        else SessionResponse
  }

  /** With debug enabled, debug paths are handled like any other. */
  lemma {:induction false} DebugEnabledPassesDebugPaths(path: string, localized: bool, session: Try<Option<string>>,
                                     homeWorkspace: string -> Try<Option<string>>)
    ensures Handle(Some("true"), path, localized, session, homeWorkspace) != NotFound
  {
  }

  /** A signed-in visitor of "/" goes to the chat of the home workspace, or
      to setup when it is missing, the query fails or it throws. */
  lemma {:induction false} HomeRedirect(debugEnv: Option<string>, user: string, homeWorkspace: string -> Try<Option<string>>)
    ensures homeWorkspace(user).Returned? && homeWorkspace(user).value.Some? ==>
              Handle(debugEnv, "/", false, Returned(Some(user)), homeWorkspace)
              == Redirect("/" + homeWorkspace(user).value.value + "/chat")
    ensures !(homeWorkspace(user).Returned? && homeWorkspace(user).value.Some?) ==>
              Handle(debugEnv, "/", false, Returned(Some(user)), homeWorkspace) == Redirect("/setup")
  {
    DebugPathExamples();
  }

  /** Without a session, or on another path, the session response is
      returned; a failure of the session client passes the request on. */
  lemma {:induction false} NoRedirectOtherwise(debugEnv: Option<string>, path: string, session: Try<Option<string>>,
                            homeWorkspace: string -> Try<Option<string>>)
    requires DebugEnabled(debugEnv) || !IsDebugPath(path)
    ensures session.Raised? ==> Handle(debugEnv, path, false, session, homeWorkspace) == PassThrough
    ensures session == Returned(None) || (session.Returned? && path != "/") ==>
              Handle(debugEnv, path, false, session, homeWorkspace) == SessionResponse
  {
  }
}
