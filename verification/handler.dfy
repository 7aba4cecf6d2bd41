/**
 The authentication-success handler: it reads the granted-authority
 collection and the name of the authenticated principal and takes the
 redirect decision. The collection is ordered, as a Java `Collection` is when
 iterated; the decision is proved to depend only on which tokens it holds.
 */
module Handler {
  import opened Wrappers
  import opened Authorities
  import opened Redirect

  /** What the handler is given after login. Only `authorities` and `name` are
      read; the other fields are the remaining parts of the principal object,
      with `None` standing for a null reference. */
  datatype Authentication = Authentication(
    authorities: seq<string>,
    name: string,
    credentials: Option<string>,
    details: Option<string>,
    principal: Option<string>,
    authenticated: bool)

  /** The tokens a collection holds, forgetting order and repetition. */
  function ToSet(s: seq<string>): set<string>
  {
    set x | x in s
  }

  /** The higher-ranked of two optional authorities. */
  function Higher(x: Option<Authority>, y: Option<Authority>): Option<Authority>
  {
    match (x, y)
    case (None, _) => y
    case (_, None) => x
    case (Some(a), Some(b)) => if Rank(b) > Rank(a) then y else x
  }

  /** The highest-ranked recognised authority in the collection, if any. */
  function Scan(auths: seq<string>): (r: Option<Authority>)
    ensures r.None? <==> forall a: Authority :: Name(a) !in auths
    ensures r.Some? ==> Top(ToSet(auths), r.value)
  {
    if |auths| == 0 then None
    else
      var init := auths[..|auths| - 1];
      var last := auths[|auths| - 1];
      assert auths == init + [last];
      Higher(Scan(init), Parse(last))
  }

  /** The outcome for a top authority, or the failure when there is none. */
  function Decide(top: Option<Authority>, name: string): Outcome
  {
    match top
    case None => InvalidState
    case Some(a) => Redirect(Target(a, name))
  }

  /** Scanning the ordered collection agrees with the decision rule applied to
      the set of tokens it holds. */
  lemma ScanAgreesWithResolve(auths: seq<string>, name: string)
    ensures Decide(Scan(auths), name) == Resolve(ToSet(auths), name)
  {
  }

  /** The handler's decision for an authentication. */
  function OnAuthenticationSuccess(auth: Authentication): (r: Outcome)
    ensures r == Resolve(ToSet(auth.authorities), auth.name)
  {
    ScanAgreesWithResolve(auth.authorities, auth.name);
    Decide(Scan(auth.authorities), auth.name)
  }

  /** The decision taken by iterating over the authority collection once,
      keeping the highest-ranked recognised authority seen so far. */
  method DetermineTargetUrl(auth: Authentication) returns (r: Outcome)
    ensures r == Resolve(ToSet(auth.authorities), auth.name)
  {
    var auths := auth.authorities;
    var best: Option<Authority> := None;
    var i := 0;
    while i < |auths|
      invariant 0 <= i <= |auths|
      invariant best == Scan(auths[..i])
    {
      assert auths[..i + 1][..i] == auths[..i];
      best := Higher(best, Parse(auths[i]));
      i := i + 1;
    }
    assert auths[..i] == auths;
    ScanAgreesWithResolve(auths, auth.name);
    match best
    case None => r := InvalidState;
    case Some(a) => r := Redirect(Target(a, auth.name));
  }

  /** The decision is by membership, not by position: two collections holding
      the same tokens, in any order and with any repetition, decide alike. */
  lemma CollectionOrderIrrelevant(auth1: Authentication, auth2: Authentication)
    requires auth1.name == auth2.name
    requires forall x :: x in auth1.authorities <==> x in auth2.authorities
    ensures OnAuthenticationSuccess(auth1) == OnAuthenticationSuccess(auth2)
  {
  }

  /** Credentials, details, principal and the authenticated flag play no part
      in the decision. */
  lemma OnlyAuthoritiesAndNameRead(auth1: Authentication, auth2: Authentication)
    requires auth1.authorities == auth2.authorities && auth1.name == auth2.name
    ensures OnAuthenticationSuccess(auth1) == OnAuthenticationSuccess(auth2)
  {
  }
}
