/** The security manager and the subject it serves.  A subject is bound to
    one security manager when it is built: the one given to the builder, else
    the one bound to the calling thread, else the static one.  It then sends
    login, logout and session creation through that manager alone. */
module Mgt {
  import opened Wrappers
  import opened Principals
  import opened Sessions
  import opened Realms

  // ---------------------------------------------------------------------
  // Resolving the security manager

  /** The three places a security manager is looked for, in precedence order. */
  datatype ManagerSource = Explicit | ThreadBound | Static

  datatype UnavailableSecurityManager = UnavailableSecurityManager(tried: seq<ManagerSource>)

  const UnavailablePrefix: string := "No SecurityManager accessible"

  function SourceName(s: ManagerSource): string {
    match s
    case Explicit => "the subject builder"
    case ThreadBound => "the thread context"
    case Static => "the static singleton"
  }

  function SourceNames(tried: seq<ManagerSource>): string
    decreases |tried|
  {
    if tried == [] then ""
    else if |tried| == 1 then SourceName(tried[0])
    else SourceName(tried[0]) + ", " + SourceNames(tried[1..])
  }

  /** The message of the unavailable error: it starts with a fixed phrase and
      names the lookup paths that were tried. */
  function Message(e: UnavailableSecurityManager): (m: string)
    ensures UnavailablePrefix <= m
  {
    UnavailablePrefix + " to the calling code; looked in " + SourceNames(e.tried)
  }

  /** The active security manager: explicit beats thread-bound beats static;
      with none of the three the lookup fails naming all three. */
  function Resolve<M(==)>(explicit: Option<M>, threadBound: Option<M>, staticOne: Option<M>): (r: Result<M, UnavailableSecurityManager>)
    ensures r.Failure? <==> explicit == None && threadBound == None && staticOne == None
    ensures r.Failure? ==> r.error.tried == [Explicit, ThreadBound, Static]
    // an explicit manager always wins
    ensures explicit.Some? ==> r == Success(explicit.value)
    // a thread-bound manager wins over the static one
    ensures explicit.None? && threadBound.Some? ==> r == Success(threadBound.value)
    // the result is always one of the managers offered
    ensures r.Success? ==> Some(r.value) in {explicit, threadBound, staticOne}
  {
    match (explicit, threadBound, staticOne)
    case (Some(m), _, _) => Success(m)
    case (None, Some(m), _) => Success(m)
    case (None, None, Some(m)) => Success(m)
    case (None, None, None) => Failure(UnavailableSecurityManager([Explicit, ThreadBound, Static]))
  }

  // ---------------------------------------------------------------------
  // Subject factories

  /** The subject factory a security manager builds subjects with: the
      default one, or one that turns session creation off for every subject. */
  datatype SubjectFactory = DefaultSubjectFactory | SessionCreationDisabledSubjectFactory

  /** Whether a subject built by `f` may create sessions, when the request
      asked for `requested`. */
  function SessionCreationFor(f: SubjectFactory, requested: bool): (b: bool)
    ensures b ==> requested
    ensures f == DefaultSubjectFactory ==> b == requested
    ensures f == SessionCreationDisabledSubjectFactory ==> !b
  {
    f == DefaultSubjectFactory && requested
  }

  /** How a session becomes bound: an existing binding is kept; otherwise a
      fresh session is started exactly when creation is wanted and allowed. */
  ghost predicate SessionBinding(existing: Option<SessionId>, create: bool,
                                 before: map<SessionId, Session>, after: map<SessionId, Session>,
                                 bound: Option<SessionId>, now: int)
  {
    if existing.Some? then bound == existing && after == before
    else if create then bound.Some? && bound.value !in before && after == before[bound.value := NewSession(bound.value, now)]
    else bound == None && after == before
  }

  datatype SessionAccessError = SessionCreationDisabled

  // ---------------------------------------------------------------------
  // The security manager

  class SecurityManager {
    var realm: Option<Realm>
    var subjectFactory: SubjectFactory
    const sessions: SessionManager

    ghost predicate Valid()
      reads this, sessions
    {
      sessions.Valid()
    }

    constructor ()
      ensures Valid() && fresh(sessions) && sessions.sessions == map[]
      ensures realm == None && subjectFactory == DefaultSubjectFactory
    {
      realm := None;
      subjectFactory := DefaultSubjectFactory;
      sessions := new SessionManager();
    }

    method SetRealm(r: Realm)
      modifies this
      ensures realm == Some(r) && subjectFactory == old(subjectFactory)
    {
      realm := Some(r);
    }

    method SetSubjectFactory(f: SubjectFactory)
      modifies this
      ensures subjectFactory == f && realm == old(realm)
    {
      subjectFactory := f;
    }

    /** Starts a session when none is bound and one is to be created. */
    method Bind(existing: Option<SessionId>, create: bool, now: int) returns (bound: Option<SessionId>)
      requires Valid()
      modifies sessions
      ensures Valid()
      ensures SessionBinding(existing, create, old(sessions.sessions), sessions.sessions, bound, now)
    {
      if existing.Some? {
        bound := existing;
      } else if create {
        var id := sessions.Start(now);
        bound := Some(id);
      } else {
        bound := None;
      }
    }

    /** Authenticates the token; on success returns the principals and the
        session bound afterwards.  A failure is the realm's error, unchanged,
        and starts no session. */
    method Login(token: UsernamePasswordToken, existing: Option<SessionId>, sessionCreationEnabled: bool, now: int)
      returns (r: Result<(PrincipalCollection, Option<SessionId>), AuthenticationError>)
      requires Valid()
      modifies sessions
      ensures Valid()
      ensures r.Success? <==> Authenticate(realm, token).Success?
      ensures r.Failure? ==> r.error == Authenticate(realm, token).error && sessions.sessions == old(sessions.sessions)
      ensures r.Success? ==> r.value.0 == Authenticate(realm, token).value
      ensures r.Success? ==> SessionBinding(existing, SessionCreationFor(subjectFactory, sessionCreationEnabled),
                                            old(sessions.sessions), sessions.sessions, r.value.1, now)
    {
      var auth := Authenticate(realm, token);
      match auth
      case Failure(e) =>
        r := Failure(e);
      case Success(principals) =>
        var bound := Bind(existing, SessionCreationFor(subjectFactory, sessionCreationEnabled), now);
        r := Success((principals, bound));
    }

    /** Stops the bound session, ignoring whatever the stop reports. */
    method Logout(session: Option<SessionId>, now: int)
      requires Valid()
      modifies sessions
      ensures Valid()
      ensures sessions.sessions == if session.Some? then Step(old(sessions.sessions), session.value, Stop, now).1
                                   else old(sessions.sessions)
    {
      if session.Some? {
        var ignored := sessions.Perform(session.value, Stop, now);
      }
    }

    /** Builds a subject bound to this manager.  The subject factory decides
        whether the subject may create sessions; a subject with principals
        that may gets one started, and one that may not simply has none. */
    method CreateSubject(principals: Option<PrincipalCollection>, sessionCreationEnabled: bool, now: int) returns (s: Subject)
      requires Valid()
      modifies sessions
      ensures Valid() && fresh(s) && s.Valid()
      ensures s.manager == this && s.principals == principals && !s.authenticated
      ensures s.sessionCreationEnabled == SessionCreationFor(subjectFactory, sessionCreationEnabled)
      ensures SessionBinding(None, s.sessionCreationEnabled && principals.Some? && !IsEmpty(principals.value),
                             old(sessions.sessions), sessions.sessions, s.session, now)
    {
      var enabled := SessionCreationFor(subjectFactory, sessionCreationEnabled);
      var bound := Bind(None, enabled && principals.Some? && !IsEmpty(principals.value), now);
      s := new Subject(this, principals, bound, enabled);
    }
  }

  // ---------------------------------------------------------------------
  // The subject

  class Subject {
    const manager: SecurityManager
    var principals: Option<PrincipalCollection>
    var authenticated: bool
    var session: Option<SessionId>
    var sessionCreationEnabled: bool

    /** Authenticated implies principals; a bound session is one the
        manager knows. */
    ghost predicate Valid()
      reads this, manager, manager.sessions
    {
      && manager.Valid()
      && (authenticated ==> principals.Some?)
      && (session.Some? ==> session.value in manager.sessions.sessions)
    }

    constructor (manager: SecurityManager, principals: Option<PrincipalCollection>, session: Option<SessionId>, sessionCreationEnabled: bool)
      requires manager.Valid()
      requires session.Some? ==> session.value in manager.sessions.sessions
      ensures Valid()
      ensures this.manager == manager && this.principals == principals && !authenticated
      ensures this.session == session && this.sessionCreationEnabled == sessionCreationEnabled
    {
      this.manager := manager;
      this.principals := principals;
      this.authenticated := false;
      this.session := session;
      this.sessionCreationEnabled := sessionCreationEnabled;
    }

    /** Whether the subject logged in; an authenticated subject always has
        principals. */
    function IsAuthenticated(): (b: bool)
      reads this, manager, manager.sessions
      requires Valid()
      ensures b ==> GetPrincipals().Some?
    {
      authenticated
    }

    /** The subject's principals; without them it has no primary principal
        and no role. */
    function GetPrincipals(): (r: Option<PrincipalCollection>)
      reads this, manager
      ensures r.None? ==> GetPrincipal() == None && forall role :: !HasRole(role)
      ensures r.Some? ==> GetPrincipal() == Primary(r.value)
    {
      principals
    }

    /** The primary principal, or none without principals. */
    function GetPrincipal(): (p: Option<Principal>)
      reads this
      ensures principals.Some? ==> p == Primary(principals.value)
      ensures principals.None? ==> p == None
    {
      if principals.Some? then Primary(principals.value) else None
    }

    /** Role membership of the subject's principals, as the manager's realm
        configures it. */
    function HasRole(role: string): (b: bool)
      reads this, manager
      ensures b ==> principals.Some?
    {
      principals.Some? && Realms.HasRole(manager.realm, principals, role)
    }

    /** The manager the subject was built with; it never changes. */
    function GetSecurityManager(): (m: SecurityManager)
      ensures m == manager
    {
      manager
    }

    /** Logs in through the subject's own manager.  Success sets the
        principals and the authenticated flag together; failure changes
        nothing. */
    method Login(token: UsernamePasswordToken, now: int) returns (r: Outcome<AuthenticationError>)
      requires Valid()
      modifies this, manager.sessions
      ensures Valid()
      ensures r.Pass? <==> Authenticate(manager.realm, token).Success?
      ensures r.Fail? ==> r.error == Authenticate(manager.realm, token).error
      ensures r.Fail? ==> principals == old(principals) && authenticated == old(authenticated) && session == old(session)
                          && manager.sessions.sessions == old(manager.sessions.sessions)
      ensures r.Pass? ==> authenticated && principals == Some(Authenticate(manager.realm, token).value)
      ensures r.Pass? ==> GetPrincipal() == Some(token.username)
      ensures r.Pass? ==> SessionBinding(old(session), SessionCreationFor(manager.subjectFactory, sessionCreationEnabled),
                                         old(manager.sessions.sessions), manager.sessions.sessions, session, now)
      ensures sessionCreationEnabled == old(sessionCreationEnabled)
    {
      var res := manager.Login(token, session, sessionCreationEnabled, now);
      match res
      case Failure(e) =>
        r := Fail(e);
      case Success((pc, bound)) =>
        principals := Some(pc);
        authenticated := true;
        session := bound;
        r := Pass;
    }

    /** Stops the bound session and clears the session binding, the
        principals and the authenticated flag together; never fails. */
    method Logout(now: int)
      requires Valid()
      modifies this, manager.sessions
      ensures Valid()
      ensures session == None && GetPrincipal() == None && GetPrincipals() == None && !IsAuthenticated()
      ensures sessionCreationEnabled == old(sessionCreationEnabled)
      ensures manager.sessions.sessions == if old(session).Some? then Step(old(manager.sessions.sessions), old(session).value, Stop, now).1
                                           else old(manager.sessions.sessions)
    {
      manager.Logout(session, now);
      session := None;
      principals := None;
      authenticated := false;
    }

    /** `getSession(create)`: the bound session handle (not validated here);
        without one, none or, when asked to create, a fresh session, which
        is an error if session creation is disabled for this subject. */
    method GetSession(create: bool, now: int) returns (r: Result<Option<SessionId>, SessionAccessError>)
      requires Valid()
      modifies this, manager.sessions
      ensures Valid()
      ensures principals == old(principals) && authenticated == old(authenticated)
      ensures sessionCreationEnabled == old(sessionCreationEnabled)
      ensures r.Failure? <==> old(session).None? && create && !sessionCreationEnabled
      ensures r.Failure? ==> r.error == SessionCreationDisabled
                             && session == None && manager.sessions.sessions == old(manager.sessions.sessions)
      ensures r.Success? ==> r.value == session
                             && SessionBinding(old(session), create, old(manager.sessions.sessions), manager.sessions.sessions, session, now)
    {
      if session.None? && create && !sessionCreationEnabled {
        r := Failure(SessionCreationDisabled);
      } else {
        var bound := manager.Bind(session, create, now);
        session := bound;
        r := Success(bound);
      }
    }
  }

  // ---------------------------------------------------------------------
  // Ambient state and building subjects

  /** The process-wide static security manager and the one bound to the
      calling thread. */
  class Ambient {
    var threadBound: Option<SecurityManager>
    var staticManager: Option<SecurityManager>

    constructor ()
      ensures threadBound == None && staticManager == None
    {
      threadBound := None;
      staticManager := None;
    }

    /** `SecurityUtils.setSecurityManager`; None clears it. */
    method SetSecurityManager(m: Option<SecurityManager>)
      modifies this
      ensures staticManager == m && threadBound == old(threadBound)
    {
      staticManager := m;
    }

    /** Binds (or, with None, unbinds) a manager for the calling thread. */
    method BindToThread(m: Option<SecurityManager>)
      modifies this
      ensures threadBound == m && staticManager == old(staticManager)
    {
      threadBound := m;
    }

    /** `SecurityUtils.getSecurityManager`: thread-bound first, then static;
        with neither, the error names just those two places. */
    function GetSecurityManager(): (r: Result<SecurityManager, UnavailableSecurityManager>)
      reads this
      ensures r.Failure? <==> threadBound.None? && staticManager.None?
      ensures r.Failure? ==> r.error.tried == [ThreadBound, Static]
      ensures r.Success? ==> r.value == if threadBound.Some? then threadBound.value else staticManager.value
    {
      match (threadBound, staticManager)
      case (Some(m), _) => Success(m)
      case (None, Some(m)) => Success(m)
      case (None, None) => Failure(UnavailableSecurityManager([ThreadBound, Static]))
    }
  }

  /** The manager a subject builder resolves. */
  function Resolved(explicit: Option<SecurityManager>, ambient: Ambient): Result<SecurityManager, UnavailableSecurityManager>
    reads ambient
  {
    Resolve(explicit, ambient.threadBound, ambient.staticManager)
  }

  function ResolvedSessions(explicit: Option<SecurityManager>, ambient: Ambient): set<object>
    reads ambient
  {
    if Resolved(explicit, ambient).Success? then {Resolved(explicit, ambient).value.sessions} else {}
  }

  /** `new Subject.Builder(explicit).principals(p).sessionCreationEnabled(b).buildSubject()`
      (an absent `explicit` is the builder without a manager): resolves the
      manager once and has it create the subject, which stays bound to it. */
  method BuildSubject(explicit: Option<SecurityManager>, ambient: Ambient, principals: Option<PrincipalCollection>,
                      sessionCreationEnabled: bool, now: int)
    returns (r: Result<Subject, UnavailableSecurityManager>)
    requires Resolved(explicit, ambient).Success? ==> Resolved(explicit, ambient).value.Valid()
    modifies ResolvedSessions(explicit, ambient)
    ensures r.Failure? <==> Resolved(explicit, ambient).Failure?
    ensures r.Failure? ==> r.error == Resolved(explicit, ambient).error
    ensures r.Success? ==> fresh(r.value) && r.value.Valid() && r.value.manager == Resolved(explicit, ambient).value
    ensures r.Success? ==> r.value.principals == principals && !r.value.authenticated
    ensures r.Success? ==> r.value.sessionCreationEnabled == SessionCreationFor(r.value.manager.subjectFactory, sessionCreationEnabled)
    ensures r.Success? ==> SessionBinding(None, r.value.sessionCreationEnabled && principals.Some? && !IsEmpty(principals.value),
                                          old(Resolved(explicit, ambient).value.sessions.sessions), r.value.manager.sessions.sessions,
                                          r.value.session, now)
  {
    var m := Resolved(explicit, ambient);
    match m
    case Failure(e) =>
      r := Failure(e);
    case Success(sm) =>
      var s := sm.CreateSubject(principals, sessionCreationEnabled, now);
      r := Success(s);
  }
}
