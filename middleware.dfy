/**
  * The session gate run in front of every page request (middleware.ts):
  * which paths it is invoked for (`config.matcher`) and, given whether the
  * identity service reported a session, whether it redirects the request or
  * lets it through.
  */
module Middleware {
  import opened Text

  const Root := "/"
  const LoginPath := "/login"
  const SignupPath := "/signup"
  const DashboardPath := "/dashboard"

  /** What the gate answers: a redirect to a path on the same origin, or `NextResponse.next()`. */
  datatype Outcome = Redirect(target: string) | Next

  /** The sign-in and sign-up pages (matched by prefix) and the landing page. */
  predicate IsAuthRoute(path: string): (auth: bool)
    ensures auth <==> path == Root || (exists t :: path == LoginPath + t) || (exists t :: path == SignupPath + t)
  {
    StartsWith(path, LoginPath) || StartsWith(path, SignupPath) || path == Root
  }

  /** The decision taken once the session has been looked up; `loggedIn` is `!!session`. */
  function Gate(path: string, loggedIn: bool): (r: Outcome)
    ensures r.Redirect? ==> r.target == LoginPath || r.target == DashboardPath
    ensures path == Root ==> r == Next
    ensures !loggedIn ==>
              (r == Redirect(LoginPath) <==>
                 path != Root && !StartsWith(path, LoginPath) && !StartsWith(path, SignupPath))
    ensures !loggedIn ==> r != Redirect(DashboardPath)
    ensures loggedIn ==>
              (r == Redirect(DashboardPath) <==> StartsWith(path, LoginPath) || StartsWith(path, SignupPath))
    ensures loggedIn ==> r != Redirect(LoginPath)
  {
    if !loggedIn && !IsAuthRoute(path) then Redirect(LoginPath)
    else if loggedIn && IsAuthRoute(path) && path != Root then Redirect(DashboardPath)
    else Next
  }

  /**
    * The condition of each redirect: to the sign-in page exactly without a
    * session off the auth routes, to the dashboard exactly with a session on
    * an auth route other than `/`.
    */
  lemma RedirectConditions(path: string, loggedIn: bool)
    ensures Gate(path, loggedIn) == Redirect(LoginPath) <==> !loggedIn && !IsAuthRoute(path)
    ensures Gate(path, loggedIn) == Redirect(DashboardPath) <==> loggedIn && IsAuthRoute(path) && path != Root
  {
  }

  /**
    * Pass-through: without a session on `/`, `/login*` and `/signup*`; with
    * a session everywhere else, and on `/`.
    */
  lemma PassThroughCases(path: string, loggedIn: bool)
    ensures !loggedIn && IsAuthRoute(path) ==> Gate(path, loggedIn) == Next
    ensures loggedIn && (!IsAuthRoute(path) || path == Root) ==> Gate(path, loggedIn) == Next
  {
  }

  /** `/signup-success` is an auth route by prefix: passed through without a session, sent to the dashboard with one. */
  lemma SignupSuccessIsAuthRoute()
    ensures Gate("/signup-success", false) == Next
    ensures Gate("/signup-success", true) == Redirect(DashboardPath)
  {
    assert StartsWith("/signup-success", SignupPath);
  }

  // ---- config.matcher: "/((?!_next/static|_next/image|favicon.ico|auth/callback|api).*)" ----

  /** The alternatives of the negative lookahead, in order. */
  const ExcludedPatterns: seq<string> := ["_next/static", "_next/image", "favicon.ico", "auth/callback", "api"]

  /** The characters a regular-expression `.` does not match. */
  predicate IsLineTerminator(c: char) {
    c == '\n' || c == '\r' || c == '\U{2028}' || c == '\U{2029}'
  }

  /** One pattern character against one path character: `.` is a wildcard, every other character is literal. */
  predicate PatternCharMatches(p: char, c: char) {
    if p == '.' then !IsLineTerminator(c) else p == c
  }

  /** The lookahead alternative `pattern` matches at the start of `s`. */
  predicate PatternPrefixOf(pattern: string, s: string) {
    |pattern| <= |s| && forall i :: 0 <= i < |pattern| ==> PatternCharMatches(pattern[i], s[i])
  }

  predicate StartsWithExcluded(rest: string) {
    exists k :: 0 <= k < |ExcludedPatterns| && PatternPrefixOf(ExcludedPatterns[k], rest)
  }

  /** A path spelling out `/` and an excluded alternative is matched by that alternative. */
  lemma LiteralExclusion(path: string)
    ensures (exists k :: 0 <= k < |ExcludedPatterns| && StartsWith(path, "/" + ExcludedPatterns[k])) ==>
              |path| >= 1 && StartsWithExcluded(path[1..])
  {
    if k :| 0 <= k < |ExcludedPatterns| && StartsWith(path, "/" + ExcludedPatterns[k]) {
      var pattern := ExcludedPatterns[k];
      var n := |pattern|;
      assert path[..n + 1] == "/" + pattern;
      forall i | 0 <= i < n
        ensures PatternCharMatches(pattern[i], path[1..][i])
      {
        assert path[1..][i] == path[..n + 1][i + 1];
      }
      assert PatternPrefixOf(pattern, path[1..]);
    }
  }

  /**
    * The matcher accepts `path`: a leading `/`, no excluded alternative right
    * after it, and `.*` consuming the rest. Every path that starts with `/`
    * and one of the alternatives as written is refused.
    */
  predicate GateInvoked(path: string): (invoked: bool)
    ensures invoked ==> StartsWith(path, Root)
    ensures (exists k :: 0 <= k < |ExcludedPatterns| && StartsWith(path, "/" + ExcludedPatterns[k])) ==> !invoked
  {
    LiteralExclusion(path);
    |path| >= 1 && path[0] == '/' && !StartsWithExcluded(path[1..]) &&
    forall i :: 1 <= i < |path| ==> !IsLineTerminator(path[i])
  }

  /** How a request is handled: the gate is skipped, or it runs and answers. */
  datatype Handling = Bypassed | Gated(outcome: Outcome)

  /**
    * The middleware as deployed: the matcher decides whether the gate runs.
    * Paths without the leading `/` and paths under an excluded alternative
    * never reach it; the landing, sign-in and dashboard pages always do.
    */
  function Handle(path: string, loggedIn: bool): (h: Handling)
    ensures h.Bypassed? <==> !GateInvoked(path)
    ensures h.Gated? ==> h.outcome == Gate(path, loggedIn)
    ensures !StartsWith(path, Root) ==> h == Bypassed
    ensures (exists k :: 0 <= k < |ExcludedPatterns| && StartsWith(path, "/" + ExcludedPatterns[k])) ==> h == Bypassed
    ensures path == Root || path == LoginPath || path == DashboardPath ==> h == Gated(Gate(path, loggedIn))
  {
    RedirectTargetsAreGated();
    assert GateInvoked(Root) by {
      assert Root[1..] == "";
    }
    if GateInvoked(path) then Gated(Gate(path, loggedIn)) else Bypassed
  }

  /** Every path that continues one of the excluded alternatives after the leading `/` bypasses the gate. */
  lemma ExcludedPrefixBypasses(k: nat, rest: string, loggedIn: bool)
    requires k < |ExcludedPatterns|
    ensures Handle("/" + ExcludedPatterns[k] + rest, loggedIn) == Bypassed
  {
    var path := "/" + ExcludedPatterns[k] + rest;
    var tail := ExcludedPatterns[k] + rest;
    assert path[1..] == tail;
    assert PatternPrefixOf(ExcludedPatterns[k], tail);
  }

  /** Prefix matching: `/apiary` is excluded like `/api/chat`. */
  lemma ApiaryBypasses(loggedIn: bool)
    ensures Handle("/apiary", loggedIn) == Bypassed
  {
    var tail := "apiary";
    assert "/apiary"[1..] == tail;
    assert PatternPrefixOf(ExcludedPatterns[4], tail);
  }

  /** The `.` of `favicon.ico` is a wildcard, so `/favicon-ico` is excluded too. */
  lemma FaviconDotIsWildcard(loggedIn: bool)
    ensures Handle("/favicon-ico", loggedIn) == Bypassed
  {
    var tail := "favicon-ico";
    assert "/favicon-ico"[1..] == tail;
    assert PatternPrefixOf(ExcludedPatterns[2], tail);
  }

  /** The dashboard and sign-in pages themselves are gated. */
  lemma RedirectTargetsAreGated()
    ensures GateInvoked(LoginPath) && GateInvoked(DashboardPath)
  {
    assert LoginPath[1..] == "login";
    assert DashboardPath[1..] == "dashboard";
    forall k | 0 <= k < |ExcludedPatterns| ensures !PatternPrefixOf(ExcludedPatterns[k], "login") {
      if |ExcludedPatterns[k]| <= |"login"| {
        assert !PatternCharMatches(ExcludedPatterns[k][0], "login"[0]);
      }
    }
    forall k | 0 <= k < |ExcludedPatterns| ensures !PatternPrefixOf(ExcludedPatterns[k], "dashboard") {
      if |ExcludedPatterns[k]| <= |"dashboard"| {
        assert !PatternCharMatches(ExcludedPatterns[k][0], "dashboard"[0]);
      }
    }
  }

  /**
    * No redirect loop: following a redirect with the same session state is
    * let through by the gate.
    */
  lemma NoRedirectLoop(path: string, loggedIn: bool)
    ensures Handle(path, loggedIn).Gated? && Handle(path, loggedIn).outcome.Redirect? ==>
              Handle(Handle(path, loggedIn).outcome.target, loggedIn) == Gated(Next)
  {
    RedirectTargetsAreGated();
    assert !IsAuthRoute(DashboardPath) by {
      assert DashboardPath[..|LoginPath|][1] != LoginPath[1];
      assert DashboardPath[..|SignupPath|][1] != SignupPath[1];
    }
    assert StartsWith(LoginPath, LoginPath);
  }
}
