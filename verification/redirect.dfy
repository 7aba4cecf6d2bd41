/**
 The redirect decision taken after a successful login: from the set of
 authorities granted to the principal, and the principal's name, choose the
 page to send the client to, or fail with an illegal-state error when the
 principal holds no authority the decision recognises.
 */
module Redirect {
  import opened Wrappers
  import opened Authorities

  /** The decision: a destination URL, or the illegal-state failure. */
  datatype Outcome = Redirect(url: string) | InvalidState

  const MANAGEMENT_PATH: string := "/management.html"
  const CONSOLE_PATH: string := "/console"
  const HOMEPAGE_PATH: string := "/homepage.html"
  /** Query string that carries the principal's name to the homepage. */
  const USER_QUERY: string := "?user="

  /** The destination of each recognised authority. Only the read-only
      destination carries the principal's name, appended verbatim. */
  function Target(a: Authority, name: string): string
  {
    match a
    case RoleManager => MANAGEMENT_PATH
    case WritePrivilege => CONSOLE_PATH
    case ReadPrivilege => HOMEPAGE_PATH + USER_QUERY + name
  }

  ghost predicate Granted(auths: set<string>, a: Authority)
  {
    Name(a) in auths
  }

  /** `a` is granted and no granted authority outranks it. */
  ghost predicate Top(auths: set<string>, a: Authority)
  {
    Granted(auths, a) && forall b: Authority :: Granted(auths, b) ==> Rank(b) <= Rank(a)
  }

  /** The decision rule, tried in priority order, first match wins: manager,
      then write, then read; nothing recognised is an illegal state. */
  function Resolve(auths: set<string>, name: string): (r: Outcome)
    ensures r.InvalidState? <==> forall a: Authority :: !Granted(auths, a)
    ensures r.Redirect? ==> exists a: Authority :: Top(auths, a) && r.url == Target(a, name)
  {
    if ROLE_MANAGER in auths then
      assert Top(auths, RoleManager);
      Redirect(MANAGEMENT_PATH)
    else if WRITE_PRIVILEGE in auths then
      assert Top(auths, WritePrivilege);
      Redirect(CONSOLE_PATH)
    else if READ_PRIVILEGE in auths then
      assert Top(auths, ReadPrivilege);
      Redirect(HOMEPAGE_PATH + USER_QUERY + name)
    else
      InvalidState
  }

  /** At most one authority is on top, so the decision is determined by it. */
  lemma TopUnique(auths: set<string>, a: Authority, b: Authority)
    requires Top(auths, a) && Top(auths, b)
    ensures a == b
  {
  }

  /** Whenever some recognised authority is granted, one of them is on top
      and the decision is its destination. */
  lemma ResolveIsTopTarget(auths: set<string>, name: string, a: Authority)
    requires Top(auths, a)
    ensures Resolve(auths, name) == Redirect(Target(a, name))
  {
  }

  /** A set holding the manager role goes to the management page, whatever
      else it holds, and nothing else goes there. */
  lemma ManagerDestination(auths: set<string>, name: string)
    ensures Resolve(auths, name) == Redirect(MANAGEMENT_PATH) <==> ROLE_MANAGER in auths
  {
  }

  /** Write without the manager role goes to the console, and nothing else
      goes there. */
  lemma ConsoleDestination(auths: set<string>, name: string)
    ensures Resolve(auths, name) == Redirect(CONSOLE_PATH)
        <==> WRITE_PRIVILEGE in auths && ROLE_MANAGER !in auths
  {
  }

  /** Read alone among the recognised authorities goes to the homepage with
      the name as the `user` parameter, and nothing else goes there. */
  lemma HomepageDestination(auths: set<string>, name: string)
    ensures Resolve(auths, name) == Redirect(HOMEPAGE_PATH + USER_QUERY + name)
        <==> READ_PRIVILEGE in auths && WRITE_PRIVILEGE !in auths && ROLE_MANAGER !in auths
  {
  }

  /** No authority at all is the illegal state, never a redirect. */
  lemma EmptyIsInvalid(name: string)
    ensures Resolve({}, name) == InvalidState
  {
  }

  /** Granting an extra authority that ranks below the current top leaves the
      decision unchanged: read never overrides manager or write. */
  lemma LowerAuthorityIgnored(auths: set<string>, name: string, a: Authority, b: Authority)
    requires Top(auths, a) && Rank(b) < Rank(a)
    ensures Resolve(auths + {Name(b)}, name) == Resolve(auths, name)
  {
  }

  /** Tokens the decision does not recognise never change it. */
  lemma UnrecognisedIgnored(auths: set<string>, name: string, token: string)
    requires Parse(token).None?
    ensures Resolve(auths + {token}, name) == Resolve(auths, name)
  {
  }

  /** The `user` query parameter of a homepage URL, if the URL is one. */
  function UserParam(url: string): (r: Option<string>)
    ensures r.Some? <==> HOMEPAGE_PATH + USER_QUERY <= url
    ensures r.Some? ==> url == HOMEPAGE_PATH + USER_QUERY + r.value
  {
    var prefix := HOMEPAGE_PATH + USER_QUERY;
    if |prefix| <= |url| && url[..|prefix|] == prefix then
      assert url == prefix + url[|prefix|..];
      Some(url[|prefix|..])
    else
      None
  }

  /** Reading the `user` parameter back from a destination gives the name for
      the read-only destination and nothing for the others. */
  lemma UserParamOfTarget(a: Authority, name: string)
    ensures UserParam(Target(a, name)) == (if a == ReadPrivilege then Some(name) else None)
  {
  }

  /** Only the read-only destination carries a query string; the management
      and console destinations are bare paths. */
  lemma QueryOnlyOnHomepage(a: Authority, name: string)
    ensures '?' in Target(a, name) <==> a == ReadPrivilege
  {
  }

  /** The decision's URL carries a query string, and a `user` parameter equal
      to the name, exactly when read is the highest authority granted. */
  lemma ResolvedQuery(auths: set<string>, name: string)
    requires Resolve(auths, name).Redirect?
    ensures var url := Resolve(auths, name).url;
      && ('?' in url <==> Top(auths, ReadPrivilege))
      && (UserParam(url) == Some(name) <==> Top(auths, ReadPrivilege))
  {
  }
}
