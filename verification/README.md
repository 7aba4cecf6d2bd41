# Post-login redirect decision

A Dafny model of the decision taken by `MySimpleUrlAuthenticationSuccessHandler`
in spring-security-registration once a user has logged in. The handler reads
the principal's granted authorities and name and chooses where to send the
client:

1. `ROLE_MANAGER` granted: `/management.html`;
2. otherwise `WRITE_PRIVILEGE` granted: `/console`;
3. otherwise `READ_PRIVILEGE` granted: `/homepage.html?user=<name>`;
4. otherwise the handler fails with an illegal-state error.

The handler's own code is outside this model. The behaviour follows what its
unit test pins down, together with the priority rule above.

Modules:

- `Wrappers` (`wrappers.dfy`): the `Option` type, whose `None` also stands
  for a null reference.
- `Authorities` (`authorities.dfy`): the three recognised tokens, exact-match
  recognition (`Parse`/`Name`) and their priority (`Rank`).
- `Redirect` (`redirect.dfy`): the `Outcome` (`Redirect(url)` or
  `InvalidState`), the destination of each authority, and the decision rule
  `Resolve` over a set of tokens. Its contract is stated independently of the
  if-chain: the outcome is the destination of the highest-ranked granted
  authority, and the failure occurs exactly when none is granted.
- `Handler` (`handler.dfy`): the authentication object and the authority
  collection as an ordered sequence. `Scan` finds the top authority
  recursively, and `DetermineTargetUrl` finds it with one loop. Both are proved
  to agree with `Resolve` on the collection's set of tokens, so position and
  repetition in the collection do not matter.
- `Scenarios` (`scenarios.dfy`): the four test cases, with the test's
  principal (`testName`, null credentials, details and principal, not marked
  authenticated).

Design choice: no test fixes the relative priority of `ROLE_MANAGER` and
`WRITE_PRIVILEGE`. The model ranks the manager role first, as the rule above
states. This choice rests on the rule, not on any cited test.

## Model

| member | source | states |
|---|---|---|
| Authorities.Parse | src/test/java/com/baeldung/security/MySimpleUrlAuthenticationSuccessHandlerTest.java:35-38 | an authority token is recognised only by exact string equality with one of the three known tokens; any other token is recognised as nothing |
| Redirect.Resolve | src/test/java/com/baeldung/security/MySimpleUrlAuthenticationSuccessHandlerTest.java:33-75 | the decision fails exactly when no recognised authority is granted; otherwise it redirects to the destination of the highest-ranked granted authority |
| Redirect.ResolveIsTopTarget | src/test/java/com/baeldung/security/MySimpleUrlAuthenticationSuccessHandlerTest.java:35-56 | whichever authority outranks every other granted one determines the destination on its own (manager over write: modelling choice) |
| Redirect.ManagerDestination | src/test/java/com/baeldung/security/MySimpleUrlAuthenticationSuccessHandlerTest.java:35-43 | the outcome is `/management.html` if and only if `ROLE_MANAGER` is granted, whatever else is granted (manager over write: modelling choice) |
| Redirect.ConsoleDestination | src/test/java/com/baeldung/security/MySimpleUrlAuthenticationSuccessHandlerTest.java:48-56 | the outcome is `/console` if and only if `WRITE_PRIVILEGE` is granted and `ROLE_MANAGER` is not (manager over write: modelling choice) |
| Redirect.HomepageDestination | src/test/java/com/baeldung/security/MySimpleUrlAuthenticationSuccessHandlerTest.java:61-66 | the outcome is `/homepage.html?user=` followed by the name if and only if `READ_PRIVILEGE` is the only recognised authority granted |
| Redirect.EmptyIsInvalid | src/test/java/com/baeldung/security/MySimpleUrlAuthenticationSuccessHandlerTest.java:71-75 | an empty authority collection gives the illegal-state failure, not a redirect |
| Redirect.LowerAuthorityIgnored | src/test/java/com/baeldung/security/MySimpleUrlAuthenticationSuccessHandlerTest.java:35-56 | granting an extra authority ranked below the top one does not change the outcome, so `READ_PRIVILEGE` never overrides manager or write |
| Redirect.UnrecognisedIgnored | src/test/java/com/baeldung/security/MySimpleUrlAuthenticationSuccessHandlerTest.java:33-75 | a granted token that is none of the three recognised ones does not change the outcome |
| Redirect.UserParamOfTarget | src/test/java/com/baeldung/security/MySimpleUrlAuthenticationSuccessHandlerTest.java:66 | the `user` parameter read back from the read-only destination is exactly the principal's name; the other destinations have no such parameter |
| Redirect.QueryOnlyOnHomepage | src/test/java/com/baeldung/security/MySimpleUrlAuthenticationSuccessHandlerTest.java:43-66 | a destination contains `?` if and only if it belongs to `READ_PRIVILEGE`; the management and console destinations are bare paths |
| Redirect.ResolvedQuery | src/test/java/com/baeldung/security/MySimpleUrlAuthenticationSuccessHandlerTest.java:61-66 | a decided URL has a query string, and its `user` parameter equals the name, exactly when `READ_PRIVILEGE` is the highest authority granted |
| Handler.Scan | src/test/java/com/baeldung/security/MySimpleUrlAuthenticationSuccessHandlerTest.java:86-89 | scanning the authority collection gives nothing exactly when it holds no recognised token; otherwise it gives a granted authority that no other granted one outranks |
| Handler.ScanAgreesWithResolve | src/test/java/com/baeldung/security/MySimpleUrlAuthenticationSuccessHandlerTest.java:35-38 | the scan of the ordered collection decides as the priority rule does on the set of its tokens |
| Handler.OnAuthenticationSuccess | src/test/java/com/baeldung/security/MySimpleUrlAuthenticationSuccessHandlerTest.java:41 | the handler's outcome for an authentication is the priority rule applied to the set of its authority tokens and its name |
| Handler.DetermineTargetUrl | src/test/java/com/baeldung/security/MySimpleUrlAuthenticationSuccessHandlerTest.java:33-75 | one pass over the collection, keeping the best authority seen, yields the priority rule's outcome, which the four scenarios pin down; the loop is this model's own algorithm, the iterative form of `Scan` |
| Handler.CollectionOrderIrrelevant | src/test/java/com/baeldung/security/MySimpleUrlAuthenticationSuccessHandlerTest.java:35-51 | two collections with the same tokens, in any order or repetition, give the same outcome (reordering: modelling choice; each scenario uses a single order) |
| Handler.OnlyAuthoritiesAndNameRead | src/test/java/com/baeldung/security/MySimpleUrlAuthenticationSuccessHandlerTest.java:91-114 | credentials, details, principal and the authenticated flag do not affect the outcome |
| Scenarios.TestAuthentication | src/test/java/com/baeldung/security/MySimpleUrlAuthenticationSuccessHandlerTest.java:78-120 | the test principal has null credentials, details and principal and is not authenticated, yet its outcome is the priority rule on its tokens with the name `testName`, and any collection holding `READ_PRIVILEGE` is redirected |
| Scenarios.ManagerRoleGoesToManagerView | src/test/java/com/baeldung/security/MySimpleUrlAuthenticationSuccessHandlerTest.java:34-43 | `[READ_PRIVILEGE, ROLE_MANAGER]` for `testName` redirects to `/management.html` |
| Scenarios.WritePrivilegeGoesToConsole | src/test/java/com/baeldung/security/MySimpleUrlAuthenticationSuccessHandlerTest.java:47-56 | `[READ_PRIVILEGE, WRITE_PRIVILEGE]` for `testName` redirects to `/console` |
| Scenarios.OnlyReadGoesToUserView | src/test/java/com/baeldung/security/MySimpleUrlAuthenticationSuccessHandlerTest.java:60-66 | `[READ_PRIVILEGE]` for `testName` redirects to `/homepage.html?user=testName` |
| Scenarios.NoAuthorityIsIllegalState | src/test/java/com/baeldung/security/MySimpleUrlAuthenticationSuccessHandlerTest.java:70-75 | an empty collection for `testName` is the illegal-state failure |
| Scenarios.PriorityIndependentOfPosition | src/test/java/com/baeldung/security/MySimpleUrlAuthenticationSuccessHandlerTest.java:35-51 | manager and write win whether they come before or after `READ_PRIVILEGE` in the collection (reordering: modelling choice; the scenarios place them after it) |

## Left out

- The servlet request and response, the HTTP redirect itself and reading the redirected URL back: I/O around the decision.
- The framework's `Authentication` and `GrantedAuthority` interfaces: reduced to a sequence of token strings and a name. The unused principal fields are kept only so that their irrelevance can be stated.
- Exception types: the illegal-state exception is the `InvalidState` outcome.
- URL encoding of the name in the `user` parameter: the name is appended verbatim; the unit test neither encodes the name nor checks an encoded one.
- The relative priority of `ROLE_MANAGER` and `WRITE_PRIVILEGE`: fixed as manager-first by choice. No test pins it down.
- The handler's own code is outside this model. The model commits to the order-independent priority rule; a handler that stops at the first privileged token would not follow it for `[WRITE_PRIVILEGE, ROLE_MANAGER]`. Hence Handler.CollectionOrderIrrelevant and Scenarios.PriorityIndependentOfPosition state a modelling choice, not a tested fact.
- Redirect.ManagerDestination, Redirect.ConsoleDestination and Redirect.ResolveIsTopTarget rely on ranking `ROLE_MANAGER` above `WRITE_PRIVILEGE`, a modelling choice that no test fixes.
