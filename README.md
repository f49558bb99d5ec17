# Apache Shiro core: security manager, subjects, sessions and principal collections

A Dafny model of the core of Apache Shiro's authentication and session layer. It covers the behaviour that
`DefaultSecurityManagerTest` and `SimplePrincipalCollectionTest` pin down:

- **Principal collections** (`principals.dfy`, module `Principals`). An
  `ImmutablePrincipalCollection.Builder` accumulates `(principal, realm name)` pairs through
  `addPrincipal` until `build()` freezes it. The built collection is an immutable value with pure
  queries:
  - the principals of one realm, in insertion order and without repeats, and empty for a realm never added;
  - the primary principal;
  - structural equivalence.

  `ofSinglePrincipal` is the one-pair shortcut. The built value is specified against independent
  reference definitions: a deduplication and a per-realm projection of the added pairs.
- **Sessions** (`sessions.dfy`, module `Sessions`). The validating session manager keeps a store
  from session id to session. Each session has an attribute map, a start timestamp, a last-access
  time, an idle timeout and a state (active, stopped or expired).
  - Every operation validates first. A stopped session is unknown. An expired one stays expired. An
    active one idle for longer than a positive timeout becomes expired, and the call fails.
  - Only after validation does the operation touch the session and act. `setTimeout` follows the
    same order, so it cannot revive a session that has already timed out.
  - Time is an explicit integer clock in milliseconds.
  - New sessions get ids never handed out before, and the default timeout of thirty minutes.
- **Realm** (`realms.dfy`, module `Realms`). A realm is a map from username to account, built from
  user lines of the form `password, role1, role2, ...`. A line is split at commas and every field
  is trimmed of blanks. The first field is the password; the non-empty fields after it are the
  roles. Parsing the line written for an account gives the account back.
  - Authentication compares the token's password with the configured one and yields the
    single-principal collection of the username under the realm's name.
  - Failures are distinct: no realm configured, unknown account, or incorrect credentials.
  - Role membership is looked up through the principal the realm contributed.
- **Security manager and subjects** (`mgt.dfy`, module `Mgt`).
  - `Resolve` finds the active security manager. An explicit one wins over the thread-bound one,
    which wins over the static one. With none of the three, the lookup fails with an error whose
    message starts with "No SecurityManager accessible" and names the three paths tried.
  - A `Subject` is bound to the manager it was built with. `Subject.Login` sets the principals and
    the authenticated flag together, and binds a new session if none is bound and session creation
    is enabled. `Subject.Logout` stops the session and clears the binding, the principals and the
    flag together. `GetSession(create)` creates a session lazily, or refuses to when creation is
    disabled.
  - The subject factory can disable session creation. A subject built with principals and session
    creation disabled (by the builder or by the factory) is built without error and has no session.
- **Scenarios** (`scenarios.dfy`, module `Scenarios`). One method per test case. Each states, as
  postconditions on what it observes, what the test asserts. The `setup` fixture's realm is proved
  to come from its two user lines.

Design choices where the documented behaviour leaves room:
- A session timeout of zero or less never expires.
- Every successful operation, reads included, refreshes the last-access time.
- `stop` validates like any other operation, so stopping a stopped session reports an unknown
  session and changes nothing.
- Stopped and expired sessions stay in the store, so no session id is ever reused.
- A subject resolves its security manager once, when it is built, and keeps it.
- A user line whose first field is blank has no password, even when roles follow it (a role is
  never taken for the password); such a line makes the whole realm configuration fail. Empty role
  fields are skipped.

## Model

| member | source | states |
|---|---|---|
| `Principals.ForRealm` | core/src/test/java/org/apache/shiro/subject/SimplePrincipalCollectionTest.java:38 | the principals of a realm that contributed none are the empty sequence, not an error |
| `Principals.Primary` | core/src/test/java/org/apache/shiro/subject/SimplePrincipalCollectionTest.java:38 | an empty collection has no primary principal; a primary principal is one of the first realm's principals |
| `Principals.FromPairs` | core/src/test/java/org/apache/shiro/subject/SimplePrincipalCollectionTest.java:33-38 | the value `build()` returns is empty exactly when nothing was added, and its primary principal is the first principal added |
| `Principals.Add` | core/src/test/java/org/apache/shiro/subject/SimplePrincipalCollectionTest.java:34-36 | one `addPrincipal`: the realm keeps all its earlier principals in order and now holds the new one (at most one more entry, no replacement), and a principal it already holds is not added twice; other realms are untouched; an existing primary principal stays primary, and the first add makes the new principal primary |
| `Principals.FromPairsMatchesReference` | core/src/test/java/org/apache/shiro/subject/SimplePrincipalCollectionTest.java:33-38 | the built collection lists the distinct realm names in first-use order, and each realm holds exactly the distinct principals added under it, in first-add order |
| `Principals.BuiltHoldsExactlyAdded` | core/src/test/java/org/apache/shiro/subject/SimplePrincipalCollectionTest.java:33-38 | a principal is in a realm of the built collection exactly when that pair was added; no realm lists a principal twice |
| `Principals.InterleavingIrrelevant` | core/src/test/java/org/apache/shiro/subject/SimplePrincipalCollectionTest.java:34-36 | two add sequences with the same per-realm order build structurally equal collections, however the realms interleave |
| `Principals.AddsAccumulate` | core/src/test/java/org/apache/shiro/subject/SimplePrincipalCollectionTest.java:34-35 | later adds never remove or reorder what a realm already holds |
| `Principals.OfSinglePrincipal` | core/src/test/java/org/apache/shiro/mgt/DefaultSecurityManagerTest.java:199 | the single-principal collection has that principal as primary and as the only entry of its realm, and nothing under other realms |
| `Principals.SinglePrincipalIsBuilt` | core/src/test/java/org/apache/shiro/mgt/DefaultSecurityManagerTest.java:199 | the shortcut equals what a builder makes from that one pair |
| `Principals.Builder.constructor` | core/src/test/java/org/apache/shiro/subject/SimplePrincipalCollectionTest.java:33 | a new builder holds no pairs and is not frozen |
| `Principals.Builder.AddPrincipal` | core/src/test/java/org/apache/shiro/subject/SimplePrincipalCollectionTest.java:34-36 | before `build` the pair is appended; after it the call fails with a usage error and changes nothing |
| `Principals.Builder.Build` | core/src/test/java/org/apache/shiro/subject/SimplePrincipalCollectionTest.java:38-41 | freezes the builder, keeps its recorded pairs for rendering, and returns the collection built from them |
| `Sessions.NewSession` | core/src/test/java/org/apache/shiro/mgt/DefaultSecurityManagerTest.java:106 | a new session is active, without attributes, started and last accessed now, with the default timeout, and not idle |
| `Sessions.IdleTooLong` | core/src/test/java/org/apache/shiro/mgt/DefaultSecurityManagerTest.java:114-121 | a timeout of zero or less never expires; a session idle for at most its timeout is still valid, and one idle for longer than a positive timeout is expired |
| `Sessions.Act` | core/src/test/java/org/apache/shiro/mgt/DefaultSecurityManagerTest.java:88-89 | a validated operation always succeeds; reads and touches change nothing; `getAttribute` and `removeAttribute` report the value held before; `setAttribute`, `removeAttribute` and `setTimeout` change only their own field; only `stop` changes the state; id, start and last-access time are kept |
| `Sessions.Apply` | core/src/test/java/org/apache/shiro/mgt/DefaultSecurityManagerTest.java:110-124 | an operation succeeds exactly when the session is active and not idle too long; stopped and expired sessions fail (unknown, expired) and stay as they are; an idle active session becomes expired and the operation does not happen; success refreshes the last-access time; id and start time never change |
| `Sessions.Step` | core/src/test/java/org/apache/shiro/mgt/DefaultSecurityManagerTest.java:88-89 | an operation on the store: an unknown id fails as unknown and changes nothing; a known id gets the validated operation; no id is added or removed and other sessions are untouched |
| `Sessions.SetThenGet` | core/src/test/java/org/apache/shiro/mgt/DefaultSecurityManagerTest.java:88-89 | a set attribute is read back by the next get, unless the session went idle too long in between |
| `Sessions.SetTouchGet` | core/src/test/java/org/apache/shiro/mgt/DefaultSecurityManagerTest.java:110-111 | an intervening successful access keeps the written attribute readable |
| `Sessions.ExpiredIsNotRevived` | core/src/test/java/org/apache/shiro/mgt/DefaultSecurityManagerTest.java:114-124 | on a session idle past its timeout every operation, `setTimeout` included, fails as expired, leaves the timeout as it was, and every later access fails the same way |
| `Sessions.ShortTimeoutExpires` | core/src/test/java/org/apache/shiro/mgt/DefaultSecurityManagerTest.java:114-121 | after `setTimeout(t)` at `t0`, any access more than `t` later fails as expired and leaves the session expired |
| `Sessions.StopIsFinal` | core/src/test/java/org/apache/shiro/mgt/DefaultSecurityManagerTest.java:91-93 | a stopped session is stopped for good: every later operation reports an unknown session and changes nothing |
| `Sessions.SessionManager.constructor` | core/src/test/java/org/apache/shiro/mgt/DefaultSecurityManagerTest.java:61 | a new session manager holds no sessions |
| `Sessions.SessionManager.Start` | core/src/test/java/org/apache/shiro/mgt/DefaultSecurityManagerTest.java:142-143 | starts a new session under an id not in the store, leaving every other session as it was |
| `Sessions.SessionManager.Perform` | core/src/test/java/org/apache/shiro/mgt/DefaultSecurityManagerTest.java:110-121 | performs one validated operation on the store, as `Step` states, without changing the id counter |
| `Realms.ParseUserLine` | core/src/test/java/org/apache/shiro/mgt/DefaultSecurityManagerTest.java:64-65 | a user line fails, with a missing-password error, exactly when its first comma-separated field is blank; otherwise the password and the roles are plain trimmed tokens |
| `Realms.FirstField` | core/src/test/java/org/apache/shiro/mgt/DefaultSecurityManagerTest.java:64-65 | splits a line into the comma-free text before its first comma and the text after it, or the whole line when there is no comma |
| `Realms.TokensByField` | core/src/test/java/org/apache/shiro/mgt/DefaultSecurityManagerTest.java:64-65 | the tokens of a comma-free field are its trimmed text, if not empty; a comma ends the first field, and the tokens of the rest follow |
| `Realms.TrimEmpty` | core/src/test/java/org/apache/shiro/mgt/DefaultSecurityManagerTest.java:64-65 | trimming leaves nothing exactly when every character is blank |
| `Realms.ParsedTokens` | core/src/test/java/org/apache/shiro/mgt/DefaultSecurityManagerTest.java:64-65 | a parsed account is the line's token list: the password is the first token and the roles are the rest, in order |
| `Realms.ParsePlainPassword` | core/src/test/java/org/apache/shiro/mgt/DefaultSecurityManagerTest.java:64-65 | a line that starts with a plain token configures it as the password, with the tokens after the first comma as the roles |
| `Realms.BlankFirstField` | core/src/test/java/org/apache/shiro/mgt/DefaultSecurityManagerTest.java:64-65 | a line whose first field is blank is a missing password, whatever roles follow |
| `Realms.UserLineRoundTrip` | core/src/test/java/org/apache/shiro/mgt/DefaultSecurityManagerTest.java:64-65 | parsing the line written for an account with plain-token password and roles gives that account back |
| `Realms.UserLineNormalises` | core/src/test/java/org/apache/shiro/mgt/DefaultSecurityManagerTest.java:64-65 | reformatting a parsed line and parsing again gives the same account |
| `Realms.BuildRealm` | core/src/test/java/org/apache/shiro/mgt/DefaultSecurityManagerTest.java:63-66 | a users section configures a realm exactly when every line parses; the realm has the section's usernames, each with its parsed line |
| `Realms.BuildRealmOf` | core/src/test/java/org/apache/shiro/mgt/DefaultSecurityManagerTest.java:63-66 | a section whose every line parses to the account given for its user configures exactly those accounts |
| `Realms.Authenticate` | core/src/test/java/org/apache/shiro/mgt/DefaultSecurityManagerTest.java:81-84 | succeeds exactly when a realm is configured, knows the user and the password matches, giving the single-principal collection of the username whose primary is the username; each failure is its own error: no realm configured, unknown account, incorrect credentials for a known user with the wrong password |
| `Realms.AvailablePrincipal` | core/src/test/java/org/apache/shiro/mgt/DefaultSecurityManagerTest.java:85 | the principal a realm looks accounts up by is one it contributed itself when there is one, otherwise the primary principal; an empty collection gives none |
| `Realms.HasRole` | core/src/test/java/org/apache/shiro/mgt/DefaultSecurityManagerTest.java:85 | a role is held only with a configured realm and non-empty principals, and only when it is on the account line of the principal the realm looks up |
| `Realms.LoginGrantsConfiguredRoles` | core/src/test/java/org/apache/shiro/mgt/DefaultSecurityManagerTest.java:81-85 | after a successful authentication the principals have a role exactly when it is on the user's line |
| `Mgt.Message` | core/src/test/java/org/apache/shiro/mgt/DefaultSecurityManagerTest.java:184 | the unavailable error's message starts with "No SecurityManager accessible" |
| `Mgt.Resolve` | core/src/test/java/org/apache/shiro/mgt/DefaultSecurityManagerTest.java:180-189 | the lookup fails exactly when no manager is offered, naming all three sources; an explicit manager always wins, a thread-bound one beats the static one, and the result is always one offered |
| `Mgt.SessionCreationFor` | core/src/test/java/org/apache/shiro/mgt/DefaultSecurityManagerTest.java:218-224 | the default factory keeps the requested session-creation setting; the disabling factory always turns it off; neither turns it on |
| `Mgt.SecurityManager.constructor` | core/src/test/java/org/apache/shiro/mgt/DefaultSecurityManagerTest.java:61 | a new manager has no realm, the default subject factory and an empty session store |
| `Mgt.SecurityManager.SetRealm` | core/src/test/java/org/apache/shiro/mgt/DefaultSecurityManagerTest.java:66 | installs the realm, leaving the subject factory |
| `Mgt.SecurityManager.SetSubjectFactory` | core/src/test/java/org/apache/shiro/mgt/DefaultSecurityManagerTest.java:208-209 | installs the subject factory, leaving the realm |
| `Mgt.SecurityManager.Bind` | core/src/test/java/org/apache/shiro/mgt/DefaultSecurityManagerTest.java:87 | keeps an existing session binding; otherwise starts a fresh session exactly when one is to be created |
| `Mgt.SecurityManager.Login` | core/src/test/java/org/apache/shiro/mgt/DefaultSecurityManagerTest.java:82 | succeeds exactly when the realm authenticates the token and returns its principals; on failure returns the realm's error unchanged and creates no session; on success keeps a bound session or starts one when the factory allows creation |
| `Mgt.SecurityManager.Logout` | core/src/test/java/org/apache/shiro/mgt/DefaultSecurityManagerTest.java:91 | stops the bound session through the validating store and never fails |
| `Mgt.SecurityManager.CreateSubject` | core/src/test/java/org/apache/shiro/mgt/DefaultSecurityManagerTest.java:201 | builds an unauthenticated subject bound to this manager with the given principals; the factory decides session creation; a session is started only for non-empty principals with creation enabled, and otherwise omitted without error |
| `Mgt.Subject.constructor` | core/src/test/java/org/apache/shiro/mgt/DefaultSecurityManagerTest.java:188-189 | a subject bound to the given manager, principals and session, not authenticated |
| `Mgt.Subject.IsAuthenticated` | core/src/test/java/org/apache/shiro/mgt/DefaultSecurityManagerTest.java:83 | an authenticated subject always has principals |
| `Mgt.Subject.GetPrincipals` | core/src/test/java/org/apache/shiro/mgt/DefaultSecurityManagerTest.java:94-95 | without principals the subject has no primary principal and no role; with them its principal is their primary one |
| `Mgt.Subject.GetPrincipal` | core/src/test/java/org/apache/shiro/mgt/DefaultSecurityManagerTest.java:84 | the primary principal of the subject's collection whenever it has one, and none without a collection |
| `Mgt.Subject.HasRole` | core/src/test/java/org/apache/shiro/mgt/DefaultSecurityManagerTest.java:85 | a role is held only by a subject with principals |
| `Mgt.Subject.Login` | core/src/test/java/org/apache/shiro/mgt/DefaultSecurityManagerTest.java:82-85 | succeeds exactly when the bound manager's realm authenticates the token; success sets the principals and the authenticated flag together, makes the username the principal and binds a session as the manager does; failure changes nothing |
| `Mgt.Subject.Logout` | core/src/test/java/org/apache/shiro/mgt/DefaultSecurityManagerTest.java:91-95 | stops the bound session and clears the session binding, the principals and the authenticated flag together |
| `Mgt.Subject.GetSession` | core/src/test/java/org/apache/shiro/mgt/DefaultSecurityManagerTest.java:87-93 | returns the bound session; without one, none when not asked to create, a session-creation-disabled error when creation is off, and otherwise a freshly started session that becomes bound |
| `Mgt.Subject.GetSecurityManager` | core/src/test/java/org/apache/shiro/mgt/DefaultSecurityManagerTest.java:194 | the manager the subject was built with (a constant of the subject, fixed by `BuildSubject`) |
| `Mgt.Ambient.SetSecurityManager` | core/src/test/java/org/apache/shiro/mgt/DefaultSecurityManagerTest.java:67 | installs or clears the static manager, leaving the thread binding |
| `Mgt.Ambient.BindToThread` | core/src/test/java/org/apache/shiro/mgt/DefaultSecurityManagerTest.java:173-174 | installs or clears the thread-bound manager, leaving the static one |
| `Mgt.Ambient.GetSecurityManager` | core/src/test/java/org/apache/shiro/mgt/DefaultSecurityManagerTest.java:182 | the thread-bound manager, else the static one; fails exactly when there is neither, naming just those two places |
| `Mgt.BuildSubject` | core/src/test/java/org/apache/shiro/mgt/DefaultSecurityManagerTest.java:188-189 | fails exactly when no manager resolves, with the resolution error; otherwise a fresh subject bound to the resolved manager, created by it as `CreateSubject` states |
| `Scenarios.GuestLine` | core/src/test/java/org/apache/shiro/mgt/DefaultSecurityManagerTest.java:64 | the line `guest, guest` configures password `guest` and role `guest` |
| `Scenarios.LonestarrLine` | core/src/test/java/org/apache/shiro/mgt/DefaultSecurityManagerTest.java:65 | the line `vespa, goodguy` configures password `vespa` and role `goodguy` |
| `Scenarios.TestUsersConfigureTestRealm` | core/src/test/java/org/apache/shiro/mgt/DefaultSecurityManagerTest.java:62-66 | the fixture's users section configures exactly the two expected accounts |
| `Scenarios.Setup` | core/src/test/java/org/apache/shiro/mgt/DefaultSecurityManagerTest.java:60-68 | the fixture: a fresh manager over that realm with the default factory and no sessions, installed as the static manager |
| `Scenarios.ExampleAdds` | core/src/test/java/org/apache/shiro/subject/SimplePrincipalCollectionTest.java:34-36 | the three example adds give realm1 = frank, johnny and realm2 = Alberto |
| `Scenarios.MultiplePrincipals` | core/src/test/java/org/apache/shiro/subject/SimplePrincipalCollectionTest.java:32-42 | the built collection holds frank and johnny under realm1, in that order, and Alberto under realm2; frank is primary; an add after the build is refused |
| `Scenarios.DefaultConfig` | core/src/test/java/org/apache/shiro/mgt/DefaultSecurityManagerTest.java:78-96 | guest logs in, is authenticated, has principal guest and role guest, reads back the written attribute; after logout there is no session, principal or principal collection |
| `Scenarios.AutoCreateSessionAfterInvalidation` | core/src/test/java/org/apache/shiro/mgt/DefaultSecurityManagerTest.java:104-125 | the attribute is read back, the timeout is cut to 50 ms, and restoring the default 150 ms later fails as expired |
| `Scenarios.SubjectReuseAfterLogout` | core/src/test/java/org/apache/shiro/mgt/DefaultSecurityManagerTest.java:132-168 | guest then lonestarr log in through one subject: each is authenticated with its principal and role; guest reads back the written attribute; after each logout there is no session, principal or principal collection; the second session id differs from the first |
| `Scenarios.NewSubjectWithoutThreadSecurityManager` | core/src/test/java/org/apache/shiro/mgt/DefaultSecurityManagerTest.java:178-195 | with no static manager the lookup fails with the documented message, yet a subject built with the explicit manager logs in and reports that manager |
| `Scenarios.NewSubjectWithoutSessionCreationEnabled` | core/src/test/java/org/apache/shiro/mgt/DefaultSecurityManagerTest.java:198-204 | the subject is built, its principal is guest, and it has no session |
| `Scenarios.NewSubjectWithSubjectFactoryThatDisablesSessionCreation` | core/src/test/java/org/apache/shiro/mgt/DefaultSecurityManagerTest.java:207-224 | with the disabling factory the subject is built, its principal is guest, it has no session, and asking to create one is refused |

## Left out

- Wall-clock time and `Thread.sleep`: every operation takes the current time as a parameter `now`.
- Concurrency: thread-local binding, thread safety of the session store, and parallel execution are
  not modelled. The thread-bound manager is a single field of `Ambient`.
- INI loading: only the value shape of a user line is modelled. `Ini`, its sections and the
  `IniRealm` class are not part of this model. The realm name `iniRealm` is this model's constant.
- Credential hashing and credential matchers: passwords are compared as plain strings.
- Authorization beyond role membership: permissions are not modelled.
- Multi-realm authentication strategies: a security manager has at most one realm, as the fixture
  configures it, so no aggregation strategy across several realms is modelled.
- Locked or disabled accounts and their error: the user-line shape has no way to express them.
- Logging and `toString` rendering: the builder keeps its recorded pairs, but no rendering is defined.
- `destroy`, teardown, session deletion and persistence backends: sessions stay in the in-memory
  store, stopped or expired.
- Absolute session timeouts and a background validation sweep: only the idle timeout, checked on
  access, is modelled.
- Session handles: the scenarios call the session manager directly with the session id instead of
  going through a `Session` proxy object. The attributes Shiro keeps internally in a session (the
  bound principals and authentication state) are not modelled.
- `DefaultSecurityManager`, `DelegatingSubject`, `DefaultSubjectFactory`, `SecurityUtils`,
  `ThreadContext` and `ImmutablePrincipalCollection` are modelled from their documented behaviour
  and from what the two tests observe; their code is not reproduced, so the model cites the test
  lines that exercise each member.
- Mgt.Subject.HasRole: states only that a role needs principals. That the roles are exactly those
  configured is proved separately, by `Realms.LoginGrantsConfiguredRoles` for a freshly
  authenticated collection.
- Realms.HasRole: states one direction only: a held role is on the account line of the principal
  the realm looks up. The converse, for a freshly authenticated collection, is
  `Realms.LoginGrantsConfiguredRoles`.
