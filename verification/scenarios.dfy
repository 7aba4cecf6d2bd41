/**
 The four login scenarios the handler is held to, each for the principal
 named `testName` whose remaining fields are null and whose authenticated
 flag is false.
 */
module Scenarios {
  import opened Wrappers
  import opened Authorities
  import opened Redirect
  import opened Handler

  /** The test principal: the given authorities, the name `testName`, null
      credentials, details and principal, and not marked authenticated. */
  function TestAuthentication(auths: seq<string>): (auth: Authentication)
    ensures auth.credentials.None? && auth.details.None? && auth.principal.None?
    ensures !auth.authenticated
    ensures OnAuthenticationSuccess(auth) == Resolve(ToSet(auths), "testName")
    ensures READ_PRIVILEGE in auths ==> OnAuthenticationSuccess(auth).Redirect?
  {
    Authentication(auths, "testName", None, None, None, false)
  }

  /** Read and manager: the manager view. */
  lemma ManagerRoleGoesToManagerView()
    ensures OnAuthenticationSuccess(TestAuthentication([READ_PRIVILEGE, ROLE_MANAGER]))
        == Redirect("/management.html")
  {
  }

  /** Read and write: the console. */
  lemma WritePrivilegeGoesToConsole()
    ensures OnAuthenticationSuccess(TestAuthentication([READ_PRIVILEGE, WRITE_PRIVILEGE]))
        == Redirect("/console")
  {
  }

  /** Read alone: the homepage, with the principal's name as the user. */
  lemma OnlyReadGoesToUserView()
    ensures OnAuthenticationSuccess(TestAuthentication([READ_PRIVILEGE]))
        == Redirect("/homepage.html?user=testName")
  {
  }

  /** No authority: the illegal-state failure. */
  lemma NoAuthorityIsIllegalState()
    ensures OnAuthenticationSuccess(TestAuthentication([])) == InvalidState
  {
  }

  /** The higher authority wins in either position of the collection. */
  lemma PriorityIndependentOfPosition()
    ensures OnAuthenticationSuccess(TestAuthentication([ROLE_MANAGER, READ_PRIVILEGE]))
        == OnAuthenticationSuccess(TestAuthentication([READ_PRIVILEGE, ROLE_MANAGER]))
        == Redirect("/management.html")
    ensures OnAuthenticationSuccess(TestAuthentication([WRITE_PRIVILEGE, READ_PRIVILEGE]))
        == OnAuthenticationSuccess(TestAuthentication([READ_PRIVILEGE, WRITE_PRIVILEGE]))
        == Redirect("/console")
  {
  }
}
