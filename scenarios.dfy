/** The documented usage scenarios, each a method that sets up its own
    objects and returns what the scenario observes; the `ensures` clauses
    state the observations the scenario expects. */
module Scenarios {
  import opened Wrappers
  import opened Principals
  import opened Sessions
  import opened Realms
  import opened Mgt

  const IniRealmName: RealmName := "iniRealm"

  /** The users section of the fixture: username to user line (the lines
      `guest, guest` and `vespa, goodguy`, written as password, separator
      and role). */
  function TestUsers(): map<string, string> {
    map["guest" := "guest" + ", " + "guest", "lonestarr" := "vespa" + ", " + "goodguy"]
  }

  function TestRealm(): Realm {
    Realm(IniRealmName, map["guest" := Account("guest", ["guest"]), "lonestarr" := Account("vespa", ["goodguy"])])
  }

  /** A line of a password, a comma, a space and one role configures that
      password and that role. */
  lemma OneRoleLine(password: string, role: string)
    requires PlainToken(password) && PlainToken(role)
    ensures ParseUserLine(password + ", " + role) == Success(Account(password, [role]))
  {
    var xs := [password, role];
    assert [Account(password, [role]).password] + [role] == xs;
    assert xs[1..] == [role];
    assert JoinTokens(xs) == password + ", " + JoinTokens([role]);
    UserLineRoundTrip(Account(password, [role]));
  }

  lemma GuestLine()
    ensures ParseUserLine("guest" + ", " + "guest") == Success(Account("guest", ["guest"]))
  {
    OneRoleLine("guest", "guest");
  }

  lemma LonestarrLine()
    ensures ParseUserLine("vespa" + ", " + "goodguy") == Success(Account("vespa", ["goodguy"]))
  {
    OneRoleLine("vespa", "goodguy");
  }

  /** The fixture's user lines configure exactly the two expected accounts. */
  lemma TestUsersConfigureTestRealm()
    ensures BuildRealm(IniRealmName, TestUsers()) == Success(TestRealm())
  {
    GuestLine();
    LonestarrLine();
    var users, accounts := TestUsers(), TestRealm().accounts;
    assert users.Keys == accounts.Keys;
    forall u | u in users
      ensures ParseUserLine(users[u]) == Success(accounts[u])
    {
      assert u == "guest" || u == "lonestarr";
    }
    BuildRealmOf(IniRealmName, users, accounts);
  }

  /** The fixture: a security manager over the realm of the users section,
      installed as the static security manager. */
  method Setup() returns (sm: SecurityManager, ambient: Ambient)
    ensures fresh(sm) && fresh(sm.sessions) && fresh(ambient)
    ensures sm.Valid() && sm.realm == Some(TestRealm()) && sm.subjectFactory == DefaultSubjectFactory
    ensures sm.sessions.sessions == map[]
    ensures ambient.threadBound == None && ambient.staticManager == Some(sm)
  {
    sm := new SecurityManager();
    TestUsersConfigureTestRealm();
    var realm := BuildRealm(IniRealmName, TestUsers());
    sm.SetRealm(realm.value);
    ambient := new Ambient();
    ambient.SetSecurityManager(Some(sm));
  }

  /** Building three pairs is three `Add`s on the empty collection. */
  lemma BuildThree(x: (Principal, RealmName), y: (Principal, RealmName), z: (Principal, RealmName))
    ensures FromPairs([x, y, z]) == Add(Add(Add(Empty, x.0, x.1), y.0, y.1), z.0, z.1)
  {
    assert [x][..0] == [];
    BuildStep([x], y);
    assert [x] + [y] == [x, y];
    BuildStep([x, y], z);
    assert [x, y] + [z] == [x, y, z];
  }

  /** The example pairs, added one at a time. */
  lemma ExampleAdds()
    ensures Add(Add(Add(Empty, "frank", "realm1"), "johnny", "realm1"), "Alberto", "realm2")
            == PrincipalCollection(["realm1", "realm2"], map["realm1" := ["frank", "johnny"], "realm2" := ["Alberto"]])
  {
    assert "johnny" != "frank" by { assert "johnny"[0] != "frank"[0]; }
    assert "realm2" != "realm1" by { assert "realm2"[5] != "realm1"[5]; }
    var c1 := Add(Empty, "frank", "realm1");
    assert AppendNew([], "realm1") == ["realm1"] && AppendNew(ForRealm(Empty, "realm1"), "frank") == ["frank"];
    assert c1 == PrincipalCollection(["realm1"], map["realm1" := ["frank"]]);
    var c2 := Add(c1, "johnny", "realm1");
    assert AppendNew(c1.realms, "realm1") == ["realm1"];
    assert AppendNew(ForRealm(c1, "realm1"), "johnny") == ["frank", "johnny"];
    assert c2 == PrincipalCollection(["realm1"], map["realm1" := ["frank", "johnny"]]);
    assert AppendNew(c2.realms, "realm2") == ["realm1", "realm2"];
    assert AppendNew(ForRealm(c2, "realm2"), "Alberto") == ["Alberto"];
  }

  /** Three principals from two realms, built once; a fourth add after the
      build is refused. */
  method MultiplePrincipals() returns (c: PrincipalCollection, late: Outcome<UsageError>)
    ensures ForRealm(c, "realm1") == ["frank", "johnny"] && ForRealm(c, "realm2") == ["Alberto"]
    ensures c.realms == ["realm1", "realm2"] && Primary(c) == Some("frank")
    ensures late == Fail(AlreadyBuilt)
  {
    var b := new Builder();
    var r1 := b.AddPrincipal("frank", "realm1");
    var r2 := b.AddPrincipal("johnny", "realm1");
    var r3 := b.AddPrincipal("Alberto", "realm2");
    c := b.Build();
    assert b.added == [("frank", "realm1"), ("johnny", "realm1"), ("Alberto", "realm2")];
    BuildThree(("frank", "realm1"), ("johnny", "realm1"), ("Alberto", "realm2"));
    ExampleAdds();
    late := b.AddPrincipal("frank", "realm3");
  }

  /** Log in as guest, use the session, log out: afterwards there is no
      session, no principal and no principal collection. */
  method DefaultConfig(now: int)
    returns (authenticated: bool, principal: Option<Principal>, hasGuestRole: bool,
             readBack: Result<Reply, SessionError>,
             sessionAfter: Result<Option<SessionId>, SessionAccessError>,
             principalAfter: Option<Principal>, principalsAfter: Option<PrincipalCollection>)
    ensures authenticated && principal == Some("guest") && hasGuestRole
    ensures readBack == Success(Attribute(Some("value")))
    ensures sessionAfter == Success(None) && principalAfter == None && principalsAfter == None
  {
    var sm, ambient := Setup();
    var built := BuildSubject(None, ambient, None, true, now);
    var subject := built.value;
    var token := UsernamePasswordToken("guest", "guest");
    var login := subject.Login(token, now);
    authenticated := subject.IsAuthenticated();
    principal := subject.GetPrincipal();
    LoginGrantsConfiguredRoles(TestRealm(), token, "guest");
    hasGuestRole := subject.HasRole("guest");
    var session := subject.GetSession(true, now);
    var id := session.value.value;
    var written := sm.sessions.Perform(id, SetAttribute("key", "value"), now);
    readBack := sm.sessions.Perform(id, GetAttribute("key"), now);
    subject.Logout(now);
    sessionAfter := subject.GetSession(false, now);
    principalAfter := subject.GetPrincipal();
    principalsAfter := subject.GetPrincipals();
  }

  /** A session whose timeout was cut to 50 ms is expired 150 ms later: even
      the call that would restore the default timeout fails with expiration
      instead of reviving it. */
  method AutoCreateSessionAfterInvalidation(t0: int)
    returns (readBack: Result<Reply, SessionError>, shortened: Result<Reply, SessionError>,
             restore: Result<Reply, SessionError>)
    ensures readBack == Success(Attribute(Some("bar")))
    ensures shortened == Success(Done)
    ensures restore == Failure(ExpiredSession)
  {
    var sm, ambient := Setup();
    var built := BuildSubject(None, ambient, None, true, t0);
    var subject := built.value;
    var session := subject.GetSession(true, t0);
    var id := session.value.value;
    var written := sm.sessions.Perform(id, SetAttribute("foo", "bar"), t0);
    readBack := sm.sessions.Perform(id, GetAttribute("foo"), t0);
    shortened := sm.sessions.Perform(id, SetTimeout(50), t0);
    restore := sm.sessions.Perform(id, SetTimeout(DefaultGlobalSessionTimeout), t0 + 150);
  }

  /** Logs a subject of the fixture's manager in with a token the realm
      accepts, then reads the authenticated flag, the principal, one role
      and the id of the session it then has. */
  method LogInAndObserve(subject: Subject, token: UsernamePasswordToken, role: string, now: int)
    returns (authenticated: bool, principal: Option<Principal>, hasRole: bool, id: SessionId)
    requires subject.Valid() && subject.manager.realm == Some(TestRealm()) && subject.sessionCreationEnabled
    requires Authenticate(Some(TestRealm()), token).Success?
    modifies subject, subject.manager.sessions
    ensures subject.Valid() && subject.sessionCreationEnabled
    ensures authenticated && principal == Some(token.username)
    ensures hasRole <==> role in TestRealm().accounts[token.username].roles
    ensures subject.session == Some(id) && id in subject.manager.sessions.sessions
    ensures old(subject.manager.sessions.sessions).Keys <= subject.manager.sessions.sessions.Keys
    // a subject without a session gets a new one, under an unused id
    ensures old(subject.session).None? ==>
              id !in old(subject.manager.sessions.sessions) && subject.manager.sessions.sessions[id] == NewSession(id, now)
  {
    var login := subject.Login(token, now);
    authenticated := subject.IsAuthenticated();
    principal := subject.GetPrincipal();
    LoginGrantsConfiguredRoles(TestRealm(), token, role);
    hasRole := subject.HasRole(role);
    var session := subject.GetSession(true, now);
    id := session.value.value;
  }

  /** Writes an attribute of a valid session and reads it back at once. */
  method WriteAndReadBack(store: SessionManager, id: SessionId, k: Key, v: Value, now: int)
    returns (readBack: Result<Reply, SessionError>)
    requires store.Valid() && id in store.sessions
    requires store.sessions[id].state == Active && !IdleTooLong(store.sessions[id], now)
    modifies store
    ensures store.Valid() && store.sessions.Keys == old(store.sessions).Keys
    ensures readBack == Success(Attribute(Some(v)))
  {
    var written := store.Perform(id, SetAttribute(k, v), now);
    SetThenGet(old(store.sessions)[id], k, v, now, now);
    readBack := store.Perform(id, GetAttribute(k), now);
  }

  /** Logs a subject out, then reads its session, principal and principals. */
  method LogOutAndObserve(subject: Subject, now: int)
    returns (session: Result<Option<SessionId>, SessionAccessError>,
             principal: Option<Principal>, principals: Option<PrincipalCollection>)
    requires subject.Valid()
    modifies subject, subject.manager.sessions
    ensures subject.Valid() && subject.session == None
    ensures subject.sessionCreationEnabled == old(subject.sessionCreationEnabled)
    ensures subject.manager.sessions.sessions.Keys == old(subject.manager.sessions.sessions).Keys
    ensures session == Success(None) && principal == None && principals == None
  {
    subject.Logout(now);
    session := subject.GetSession(false, now);
    principal := subject.GetPrincipal();
    principals := subject.GetPrincipals();
  }

  /** One subject logged in as guest, logged out, logged in as lonestarr and
      logged out again: each login authenticates and grants the user's role,
      each logout leaves no session, principal or principals, and the second
      login gets a session with a new id. */
  method SubjectReuseAfterLogout(now: int)
    returns (firstAuthenticated: bool, firstPrincipal: Option<Principal>, guestRole: bool,
             firstId: SessionId, readBack: Result<Reply, SessionError>,
             between: Result<Option<SessionId>, SessionAccessError>,
             betweenPrincipal: Option<Principal>, betweenPrincipals: Option<PrincipalCollection>,
             secondAuthenticated: bool, secondPrincipal: Option<Principal>, goodguyRole: bool,
             secondId: SessionId,
             afterwards: Result<Option<SessionId>, SessionAccessError>,
             afterwardsPrincipal: Option<Principal>, afterwardsPrincipals: Option<PrincipalCollection>)
    ensures firstAuthenticated && firstPrincipal == Some("guest") && guestRole
    ensures readBack == Success(Attribute(Some("value")))
    ensures between == Success(None) && betweenPrincipal == None && betweenPrincipals == None
    ensures secondAuthenticated && secondPrincipal == Some("lonestarr") && goodguyRole
    ensures firstId != secondId
    ensures afterwards == Success(None) && afterwardsPrincipal == None && afterwardsPrincipals == None
  {
    var sm, ambient := Setup();
    var built := BuildSubject(None, ambient, None, true, now);
    var subject := built.value;

    firstAuthenticated, firstPrincipal, guestRole, firstId :=
      LogInAndObserve(subject, UsernamePasswordToken("guest", "guest"), "guest", now);
    readBack := WriteAndReadBack(sm.sessions, firstId, "key", "value", now);
    between, betweenPrincipal, betweenPrincipals := LogOutAndObserve(subject, now);

    secondAuthenticated, secondPrincipal, goodguyRole, secondId :=
      LogInAndObserve(subject, UsernamePasswordToken("lonestarr", "vespa"), "goodguy", now);
    afterwards, afterwardsPrincipal, afterwardsPrincipals := LogOutAndObserve(subject, now);
  }

  /** With no static and no thread-bound manager the lookup fails with the
      documented message, yet a subject built with an explicit manager logs
      in through that manager. */
  method NewSubjectWithoutThreadSecurityManager(now: int)
    returns (lookupFailed: bool, message: string, login: Outcome<AuthenticationError>, usesGiven: bool)
    ensures lookupFailed && UnavailablePrefix <= message
    ensures login == Pass && usesGiven
  {
    var sm, ambient := Setup();
    ambient.SetSecurityManager(None);
    var lookup := ambient.GetSecurityManager();
    lookupFailed := lookup.Failure?;
    message := Message(lookup.error);
    var built := BuildSubject(Some(sm), ambient, None, true, now);
    var subject := built.value;
    login := subject.Login(UsernamePasswordToken("guest", "guest"), now);
    usesGiven := subject.GetSecurityManager() == sm;
  }

  /** A subject with principals but session creation disabled is built
      without error and without a session. */
  method NewSubjectWithoutSessionCreationEnabled(now: int)
    returns (built: bool, principal: Option<Principal>, session: Option<SessionId>)
    ensures built && principal == Some("guest") && session == None
  {
    var sm, ambient := Setup();
    var principals := OfSinglePrincipal("guest", "asd");
    var r := BuildSubject(None, ambient, Some(principals), false, now);
    built := r.Success?;
    principal := r.value.GetPrincipal();
    session := r.value.session;
  }

  /** A subject factory that disables session creation: building a subject
      with principals succeeds, starts no session, and a later request to
      create one is refused. */
  method NewSubjectWithSubjectFactoryThatDisablesSessionCreation(now: int)
    returns (built: bool, principal: Option<Principal>, session: Option<SessionId>,
             create: Result<Option<SessionId>, SessionAccessError>)
    ensures built && principal == Some("guest") && session == None
    ensures create == Failure(SessionCreationDisabled)
  {
    var sm, ambient := Setup();
    var current := ambient.GetSecurityManager();
    current.value.SetSubjectFactory(SessionCreationDisabledSubjectFactory);
    var principals := OfSinglePrincipal("guest", "asd");
    var r := BuildSubject(None, ambient, Some(principals), true, now);
    built := r.Success?;
    principal := r.value.GetPrincipal();
    session := r.value.session;
    create := r.value.GetSession(true, now);
  }
}
