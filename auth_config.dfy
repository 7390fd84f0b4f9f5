/**
 * The route-authorization rule: CORS preflight requests pass, requests
 * under a public path prefix pass, and every other request needs a
 * signed-in user.
 */
module AuthConfig {
  import opened Wrappers

  const PublicPaths: seq<string> := ["/login", "/register", "/api/auth", "/api/health", "/api/docs", "/api/swagger", "/api-docs"]

  /** The session, if any; `user` is the signed-in user's id. */
  datatype Session = Session(user: Option<string>)

  /** `!!auth?.user` */
  predicate HasUser(auth: Option<Session>)
  {
    auth.Some? && auth.value.user.Some?
  }

  /** `prefixes.some(p => pathname.startsWith(p))`, scanning left to right. */
  function AnyPrefix(prefixes: seq<string>, pathname: string): (r: bool)
  {
    if prefixes == [] then false
    else prefixes[0] <= pathname || AnyPrefix(prefixes[1..], pathname)
  }

  /** The scan finds a prefix exactly when some listed path is a prefix. */
  lemma {:induction false} AnyPrefixIsExists(prefixes: seq<string>, pathname: string)
    ensures AnyPrefix(prefixes, pathname) <==> exists i :: 0 <= i < |prefixes| && prefixes[i] <= pathname
  {
    if prefixes != [] {
      AnyPrefixIsExists(prefixes[1..], pathname);
      if AnyPrefix(prefixes[1..], pathname) {
        var i :| 0 <= i < |prefixes[1..]| && prefixes[1..][i] <= pathname;
        assert prefixes[i + 1] <= pathname;
      }
      if exists i :: 0 <= i < |prefixes| && prefixes[i] <= pathname {
        var i :| 0 <= i < |prefixes| && prefixes[i] <= pathname;
        if i > 0 { assert prefixes[1..][i - 1] <= pathname; }
      }
    }
  }

  predicate IsPublic(pathname: string)
  {
    AnyPrefix(PublicPaths, pathname)
  }

  /** The `authorized` callback. `verb` is the HTTP method. */
  function Authorized(verb: string, pathname: string, auth: Option<Session>): (ok: bool)
    ensures verb == "OPTIONS" ==> ok
    ensures (exists i :: 0 <= i < |PublicPaths| && PublicPaths[i] <= pathname) ==> ok
    ensures verb != "OPTIONS" && !(exists i :: 0 <= i < |PublicPaths| && PublicPaths[i] <= pathname) ==>
      (ok <==> HasUser(auth))
  {
    AnyPrefixIsExists(PublicPaths, pathname);
    if verb == "OPTIONS" then true
    else if IsPublic(pathname) then true
    else HasUser(auth)
  }

  /** Signing in never takes access away. */
  lemma AuthorizedMonotone(verb: string, pathname: string, without: Option<Session>, with: Option<Session>)
    requires HasUser(with)
    ensures Authorized(verb, pathname, without) ==> Authorized(verb, pathname, with)
  {
  }

  /** Matching is by plain prefix: every path that starts with a public entry is public, including paths under `/api/auth/`. */
  lemma PublicByPrefix(suffix: string, auth: Option<Session>, verb: string)
    ensures Authorized(verb, "/api/auth" + suffix, auth)
    ensures Authorized(verb, "/login" + suffix, auth)
  {
    assert PublicPaths[2] <= "/api/auth" + suffix;
    assert PublicPaths[0] <= "/login" + suffix;
  }

  /** A private route is refused without a session and allowed with a signed-in user. */
  lemma PrivateRouteNeedsUser(id: string)
    ensures !Authorized("GET", "/api/rooms", None)
    ensures !Authorized("GET", "/api/rooms", Some(Session(None)))
    ensures Authorized("GET", "/api/rooms", Some(Session(Some(id))))
  {
    assert !IsPublic("/api/rooms") by {
      AnyPrefixIsExists(PublicPaths, "/api/rooms");
      forall i | 0 <= i < |PublicPaths| ensures !(PublicPaths[i] <= "/api/rooms") {
        // The first position where the entry and the path differ.
        var j := if i < 2 then 1 else if i < 6 then 5 else 4;
        assert PublicPaths[i][j] != "/api/rooms"[j];
      }
    }
  }
}
