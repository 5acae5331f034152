/** The OAuth callback route: exchanges the `code` query parameter for a
    session and redirects to the home workspace's chat, to setup, to the
    login page with a message, or to the `next` parameter. The exchange and
    the workspace query are parameters. */
module AuthCallback {
  import opened Wrappers
  import opened JsText
  import opened Http

  /** The exchange's result: its error message, if any, and the signed-in
      user's id when it produced a session. */
  datatype Exchange = Exchange(error: Option<string>, sessionUser: Option<string>)

  const FailedMessage := "Authentication" + " " + "failed." + " " + "Please" + " " + "try" + " " + "again."

  /** The fixed message, already encoded. */
  const FailedMessageEncoded := "Authentication" + "%20" + "failed." + "%20" + "Please" + "%20" + "try" + "%20" + "again."

  /** The login page with the fixed message. */
  const FailedLoginPath := "/login?message=" + FailedMessageEncoded

  /** `/login?message=${encodeURIComponent(message)}`. */
  function LoginPath(message: string): string {
    "/login?message=" + EncodeUriComponent(message)
  }

  /** What the redirect appends to the origin, given the `next` value that
      is honoured: that value when it is present, else the fallback. */
  function RedirectPath(code: Option<string>, next: Option<string>,
                        exchange: string -> Try<Exchange>, homeWorkspace: string -> Try<Option<string>>): string
  {
    if code.None? || code.value == "" then (if next.Some? then next.value else "")
    else match exchange(code.value)
      case Raised(_) => FailedLoginPath
      case Returned(result) =>
        if result.error.Some? then LoginPath(result.error.value)
        else if result.sessionUser.None? then (if next.Some? then next.value else "")
        else match homeWorkspace(result.sessionUser.value)
          case Raised(_) => FailedLoginPath
          case Returned(None) => "/setup"
          case Returned(Some(id)) => if next.Some? then next.value else "/" + id + "/chat"
  }

  /** Five words of unreserved characters joined by spaces are encoded
      with `%20` in place of each space. */
  lemma {:induction false} EncodeFiveWords(a: string, b: string, c: string, d: string, e: string)
    requires forall i :: 0 <= i < |a| ==> Unreserved(a[i])
    requires forall i :: 0 <= i < |b| ==> Unreserved(b[i])
    requires forall i :: 0 <= i < |c| ==> Unreserved(c[i])
    requires forall i :: 0 <= i < |d| ==> Unreserved(d[i])
    requires forall i :: 0 <= i < |e| ==> Unreserved(e[i])
    ensures EncodeUriComponent(a + " " + b + " " + c + " " + d + " " + e)
            == a + "%20" + b + "%20" + c + "%20" + d + "%20" + e
  {
    EncodeUriComponentUnreserved(a);
    EncodeUriComponentSpaceWord(a, b);
    EncodeUriComponentSpaceWord(a + " " + b, c);
    EncodeUriComponentSpaceWord(a + " " + b + " " + c, d);
    EncodeUriComponentSpaceWord(a + " " + b + " " + c + " " + d, e);
  }

  /** The fixed message, encoded as the route encodes it. */
  lemma {:induction false} FailedLoginPathEncoded()
    ensures FailedLoginPath == LoginPath(FailedMessage)
  {
    EncodeFiveWords("Authentication", "failed.", "Please", "try", "again.");
  }

  /** The redirect target: every redirect of the route is the request's
      origin followed by a path. */
  function Target(origin: string, code: Option<string>, next: Option<string>,
                  exchange: string -> Try<Exchange>, homeWorkspace: string -> Try<Option<string>>): string
  {
    origin + RedirectPath(code, next, exchange, homeWorkspace)
  }

  /** As written, any non-empty `next` is honoured. */
  function GivenNext(next: Option<string>): (r: Option<string>)
    ensures r.Some? <==> next.Some? && next.value != ""
  {
    if next.Some? && next.value != "" then next else None
  }

  /** `GET` as written, given the origin, the `code` and `next` query
      parameters, the exchange (a throw from the cookie store, the client or
      the exchange is `Raised`), and the home-workspace query for a user
      (the id when one row is found without error). */
  function CallbackAsWritten(origin: string, code: Option<string>, next: Option<string>,
                             exchange: string -> Try<Exchange>, homeWorkspace: string -> Try<Option<string>>): string
  {
    Target(origin, code, GivenNext(next), exchange, homeWorkspace)
  }

  /** Only a `next` that is a path of this origin is honoured. */
  function LocalNext(next: Option<string>): (r: Option<string>)
    ensures r.Some? <==> next.Some? && next.value != "" && next.value[0] == '/'
    ensures r.Some? ==> r == next
  {
    if next.Some? && next.value != "" && next.value[0] == '/' then next else None
  }

  /** `GET` with `next` restricted to paths. */
  function Callback(origin: string, code: Option<string>, next: Option<string>,
                    exchange: string -> Try<Exchange>, homeWorkspace: string -> Try<Option<string>>): string
  {
    Target(origin, code, LocalNext(next), exchange, homeWorkspace)
  }

  // ---------------------------------------------------------------------------
  // The host a redirect goes to

  /** Characters that end the authority of a `https:` URL. */
  predicate EndsAuthority(c: char) {
    c == '/' || c == '?' || c == '#' || c == '\\'
  }

  /** The authority: the text before the first character that ends it. */
  function Authority(rest: string): (r: string)
    ensures |r| <= |rest| && r == rest[..|r|]
    decreases |rest|
  {
    if rest == [] || EndsAuthority(rest[0]) then "" else [rest[0]] + Authority(rest[1..])
  }

  /** The host (with any port): the authority after its last "@", which
      ends the user-info part. */
  function AfterLastAt(a: string): (r: string)
    ensures '@' !in r
    decreases |a|
  {
    if a == [] then ""
    else if a[|a| - 1] == '@' then ""
    else AfterLastAt(a[..|a| - 1]) + [a[|a| - 1]]
  }

  /** The host a `https:` URL points at. */
  function Host(url: string): Option<string> {
    if StartsWith(url, "https://") then Some(AfterLastAt(Authority(url[8..]))) else None
  }

  /** A host name: no user-info separator and nothing that ends an
      authority. */
  predicate HostName(h: string) {
    forall i :: 0 <= i < |h| ==> h[i] != '@' && !EndsAuthority(h[i])
  }

  lemma {:induction false} AuthorityOfHost(h: string, path: string)
    requires HostName(h)
    requires path == [] || EndsAuthority(path[0])
    ensures Authority(h + path) == h
    decreases |h|
  {
    if h == [] {
      assert h + path == path;
    } else {
      assert (h + path)[1..] == h[1..] + path;
      AuthorityOfHost(h[1..], path);
      assert [h[0]] + h[1..] == h;
    }
  }

  lemma {:induction false} AfterLastAtNoAt(h: string)
    requires '@' !in h
    ensures AfterLastAt(h) == h
    decreases |h|
  {
    if h != [] {
      AfterLastAtNoAt(h[..|h| - 1]);
      assert h[..|h| - 1] + [h[|h| - 1]] == h;
    }
  }

  /** The origin followed by nothing or by a path stays on the origin's host. */
  lemma {:induction false} HostOfOriginPath(h: string, path: string)
    requires HostName(h)
    requires path == [] || path[0] == '/'
    ensures Host("https://" + h + path) == Some(h)
  {
    var url := "https://" + h + path;
    assert url[..8] == "https://";
    assert url[8..] == h + path;
    AuthorityOfHost(h, path);
    assert '@' !in h by {
      forall i | 0 <= i < |h| ensures h[i] != '@' {}
    }
    AfterLastAtNoAt(h);
  }

  /** As written, a `next` that does not start with "/" is glued to the
      origin and can name another host: with origin "https://app.example" and
      `next` "@evil.example" the redirect without a code goes to
      "evil.example", as it does after any sign-in that finds a home
      workspace. */
  lemma {:induction false} NextCanLeaveOrigin(u: string, h: string, exchange: string -> Try<Exchange>,
                           homeWorkspace: string -> Try<Option<string>>)
    requires HostName(u) && HostName(h)
    ensures Host(CallbackAsWritten("https://" + u, None, Some("@" + h), exchange, homeWorkspace)) == Some(h)
  {
    var url := "https://" + u + "@" + h;
    assert CallbackAsWritten("https://" + u, None, Some("@" + h), exchange, homeWorkspace) == url;
    var rest := u + "@" + h;
    assert url[..8] == "https://" && url[8..] == rest;
    AuthorityOfHost2(rest);
    assert '@' !in h by {
      forall i | 0 <= i < |h| ensures h[i] != '@' {}
    }
    AfterLastAtSplit(u, h);
  }

  lemma {:induction false} ExampleLeavesOrigin(exchange: string -> Try<Exchange>, homeWorkspace: string -> Try<Option<string>>)
    ensures Host(CallbackAsWritten("https://app.example", None, Some("@evil.example"), exchange, homeWorkspace))
            == Some("evil.example")
  {
    assert HostName("app.example") && HostName("evil.example");
    NextCanLeaveOrigin("app.example", "evil.example", exchange, homeWorkspace);
    assert "https://" + "app.example" == "https://app.example";
    assert "@" + "evil.example" == "@evil.example";
  }

  lemma {:induction false} AuthorityOfHost2(s: string)
    requires forall i :: 0 <= i < |s| ==> !EndsAuthority(s[i])
    ensures Authority(s) == s
    decreases |s|
  {
    if s != [] {
      AuthorityOfHost2(s[1..]);
      assert [s[0]] + s[1..] == s;
    }
  }

  lemma {:induction false} AfterLastAtSplit(user: string, h: string)
    requires '@' !in h
    ensures AfterLastAt(user + "@" + h) == h
  {
    AfterLastAtSuffix(user + "@", h);
  }

  lemma {:induction false} AfterLastAtSuffix(front: string, h: string)
    requires '@' !in h && front != [] && front[|front| - 1] == '@'
    ensures AfterLastAt(front + h) == h
    decreases |h|
  {
    if h == [] {
      assert front + h == front;
    } else {
      var s := front + h;
      assert s[..|s| - 1] == front + h[..|h| - 1];
      AfterLastAtSuffix(front, h[..|h| - 1]);
      assert h[..|h| - 1] + [h[|h| - 1]] == h;
    }
  }

  /** With `next` restricted to paths, every redirect of the callback
      stays on the origin's host. */
  lemma {:induction false} RedirectStaysOnOrigin(h: string, code: Option<string>, next: Option<string>,
                              exchange: string -> Try<Exchange>, homeWorkspace: string -> Try<Option<string>>)
    requires HostName(h)
    ensures Host(Callback("https://" + h, code, next, exchange, homeWorkspace)) == Some(h)
  {
    var path := RedirectPath(code, LocalNext(next), exchange, homeWorkspace);
    PathIsLocal(code, LocalNext(next), exchange, homeWorkspace);
    HostOfOriginPath(h, path);
  }

  /** Every redirect path is empty or starts with "/" when the honoured
      `next` does. */
  lemma {:induction false} PathIsLocal(code: Option<string>, next: Option<string>,
                    exchange: string -> Try<Exchange>, homeWorkspace: string -> Try<Option<string>>)
    requires next.Some? ==> next.value != "" && next.value[0] == '/'
    ensures var p := RedirectPath(code, next, exchange, homeWorkspace);
            p == [] || p[0] == '/'
  {
  }

  // ---------------------------------------------------------------------------
  // The decision tree

  /** Without a code: `origin + next`, or the origin. */
  lemma {:induction false} NoCodeFallsBack(origin: string, next: Option<string>,
                        exchange: string -> Try<Exchange>, homeWorkspace: string -> Try<Option<string>>)
    ensures LocalNext(next).Some? ==> Callback(origin, None, next, exchange, homeWorkspace) == origin + next.value
    ensures LocalNext(next).None? ==> Callback(origin, None, next, exchange, homeWorkspace) == origin
    ensures Callback(origin, Some(""), next, exchange, homeWorkspace) == Callback(origin, None, next, exchange, homeWorkspace)
  {
  }

  /** An exchange error sends the visitor to login with that message as one
      query value; a throw sends them there with the fixed message. */
  lemma {:induction false} ExchangeFailures(origin: string, code: string, next: Option<string>,
                         exchange: string -> Try<Exchange>, homeWorkspace: string -> Try<Option<string>>)
    requires code != ""
    ensures exchange(code).Raised? ==>
              Callback(origin, Some(code), next, exchange, homeWorkspace) == origin + FailedLoginPath
    ensures exchange(code).Returned? && exchange(code).value.error.Some? ==>
              var e := EncodeUriComponent(exchange(code).value.error.value);
              Callback(origin, Some(code), next, exchange, homeWorkspace) == origin + "/login?message=" + e
              && '&' !in e && '#' !in e
  {
    if exchange(code).Returned? && exchange(code).value.error.Some? {
      EncodedHasNoDelimiters(exchange(code).value.error.value);
    }
  }

  /** After a sign-in: the home workspace's chat unless `next` is given,
      setup (whatever `next` is) when there is no home workspace, and the
      login page when the query throws. A code that yields neither an error
      nor a session falls back as if there were no code. */
  lemma {:induction false} SessionOutcomes(origin: string, code: string, next: Option<string>, user: string,
                        exchange: string -> Try<Exchange>, homeWorkspace: string -> Try<Option<string>>)
    requires code != "" && exchange(code) == Returned(Exchange(None, Some(user)))
    ensures homeWorkspace(user) == Returned(None) ==>
              Callback(origin, Some(code), next, exchange, homeWorkspace) == origin + "/setup"
    ensures homeWorkspace(user).Raised? ==>
              Callback(origin, Some(code), next, exchange, homeWorkspace) == origin + FailedLoginPath
    ensures homeWorkspace(user).Returned? && homeWorkspace(user).value.Some? ==>
              Callback(origin, Some(code), next, exchange, homeWorkspace)
              == origin + (if LocalNext(next).Some? then next.value else "/" + homeWorkspace(user).value.value + "/chat")
  {
  }

  lemma {:induction false} NoSessionFallsBack(origin: string, code: string, next: Option<string>,
                           exchange: string -> Try<Exchange>, homeWorkspace: string -> Try<Option<string>>)
    requires code != "" && exchange(code) == Returned(Exchange(None, None))
    ensures Callback(origin, Some(code), next, exchange, homeWorkspace) == Callback(origin, None, next, exchange, homeWorkspace)
  {
  }

  /** The two versions differ only in the `next` values they honour. */
  lemma {:induction false} CorrectionOnlyRestrictsNext(origin: string, code: Option<string>, next: Option<string>,
                                    exchange: string -> Try<Exchange>, homeWorkspace: string -> Try<Option<string>>)
    requires next.Some? ==> next.value == "" || next.value[0] == '/'
    ensures Callback(origin, code, next, exchange, homeWorkspace) == CallbackAsWritten(origin, code, next, exchange, homeWorkspace)
  {
  }
}
