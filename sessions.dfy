/** Sessions and the validating session manager.  Every operation on a
    session first validates it (a stopped session is no longer known, an
    expired one stays expired, an active one idle for longer than its timeout
    becomes expired) and only then refreshes its last-access time and acts.
    Time is an explicit integer clock in milliseconds. */
module Sessions {
  import opened Wrappers

  type SessionId = nat
  type Key = string
  type Value = string

  /** Thirty minutes, in milliseconds: the timeout every new session gets. */
  const DefaultGlobalSessionTimeout: int := 30 * 60 * 1000

  datatype State = Active | Stopped | Expired

  datatype Session = Session(
    id: SessionId,
    attributes: map<Key, Value>,
    startTimestamp: int,
    lastAccessTime: int,
    timeout: int,
    state: State)

  datatype SessionError = ExpiredSession | UnknownSession

  /** What a successful operation returns: nothing, or an attribute value
      (None when the key is unset). */
  datatype Reply = Done | Attribute(value: Option<Value>)

  /** The operations a session handle forwards to its manager. */
  datatype Operation =
    | Touch
    | GetAttribute(key: Key)
    | SetAttribute(key: Key, value: Value)
    | RemoveAttribute(key: Key)
    | SetTimeout(duration: int)
    | Stop

  /** The outcome of one operation and the session as it is left. */
  datatype Access = Access(result: Result<Reply, SessionError>, after: Session)

  /** The idle-timeout policy: a positive timeout is exceeded once more than
      `timeout` milliseconds passed since the last access; a timeout of zero
      or less never expires. */
  function IdleTooLong(s: Session, now: int): (b: bool)
    ensures s.timeout <= 0 ==> !b
    // at exactly `timeout` milliseconds of idleness the session is still valid
    ensures now <= s.lastAccessTime + s.timeout ==> !b
    // one millisecond more expires a session with a positive timeout
    ensures s.timeout > 0 && now > s.lastAccessTime + s.timeout ==> b
    ensures b ==> now > s.lastAccessTime
  {
    s.timeout > 0 && now - s.lastAccessTime > s.timeout
  }

  /** A session created at `now`. */
  function NewSession(id: SessionId, now: int): (s: Session)
    ensures s.id == id && s.state == Active && s.attributes == map[]
    ensures s.startTimestamp == now && s.lastAccessTime == now
    ensures s.timeout == DefaultGlobalSessionTimeout
    ensures !IdleTooLong(s, now)
  {
    Session(id, map[], now, now, DefaultGlobalSessionTimeout, Active)
  }

  /** The effect of an operation on a session that passed validation: it
      always succeeds, `stop` is the only one that changes the state,
      reads and touches change nothing, and each write changes only its own
      field. */
  function Act(s: Session, op: Operation): (a: Access)
    ensures a.result.Success?
    ensures a.after.id == s.id && a.after.startTimestamp == s.startTimestamp && a.after.lastAccessTime == s.lastAccessTime
    ensures a.after.state == if op.Stop? then Stopped else s.state
    ensures (op.Touch? || op.GetAttribute?) ==> a.after == s
    ensures (op.GetAttribute? || op.RemoveAttribute?) ==>
              a.result.value == Attribute(if op.key in s.attributes then Some(s.attributes[op.key]) else None)
    ensures op.SetAttribute? ==> a.after.attributes == s.attributes[op.key := op.value]
    ensures op.RemoveAttribute? ==> a.after.attributes == s.attributes - {op.key}
    ensures !(op.SetAttribute? || op.RemoveAttribute?) ==> a.after.attributes == s.attributes
    ensures a.after.timeout == if op.SetTimeout? then op.duration else s.timeout
  {
    match op
    case Touch => Access(Success(Done), s)
    case GetAttribute(k) =>
      Access(Success(Attribute(if k in s.attributes then Some(s.attributes[k]) else None)), s)
    case SetAttribute(k, v) => Access(Success(Done), s.(attributes := s.attributes[k := v]))
    case RemoveAttribute(k) =>
      Access(Success(Attribute(if k in s.attributes then Some(s.attributes[k]) else None)),
             s.(attributes := s.attributes - {k}))
    case SetTimeout(t) => Access(Success(Done), s.(timeout := t))
    case Stop => Access(Success(Done), s.(state := Stopped))
  }

  /** One operation on one session at time `now`: validate, then touch, then act. */
  function Apply(s: Session, op: Operation, now: int): (a: Access)
    // the operation runs exactly when the session is active and not idle too long
    ensures a.result.Success? <==> s.state == Active && !IdleTooLong(s, now)
    // stopped and expired are terminal: nothing changes any more
    ensures s.state != Active ==> a.after == s
    ensures s.state == Stopped ==> a.result == Failure(UnknownSession)
    ensures s.state == Expired ==> a.result == Failure(ExpiredSession)
    // validation comes before the operation: an idle session only expires
    ensures s.state == Active && IdleTooLong(s, now) ==>
              a.result == Failure(ExpiredSession) && a.after == s.(state := Expired)
    // a successful operation refreshes the last-access time
    ensures a.result.Success? ==> a.after.lastAccessTime == now
    // identity and creation time never change
    ensures a.after.id == s.id && a.after.startTimestamp == s.startTimestamp
  {
    match s.state
    case Stopped => Access(Failure(UnknownSession), s)
    case Expired => Access(Failure(ExpiredSession), s)
    case Active =>
      if IdleTooLong(s, now) then Access(Failure(ExpiredSession), s.(state := Expired))
      else Act(s.(lastAccessTime := now), op)
  }

  /** One operation against the session store: an id the store does not hold
      is an unknown session. */
  function Step(store: map<SessionId, Session>, id: SessionId, op: Operation, now: int)
    : (r: (Result<Reply, SessionError>, map<SessionId, Session>))
    ensures id !in store ==> r == (Failure(UnknownSession), store)
    ensures r.1.Keys == store.Keys
    ensures id in store ==> r.0 == Apply(store[id], op, now).result && r.1[id] == Apply(store[id], op, now).after
    ensures forall other :: other in store && other != id ==> r.1[other] == store[other]
  {
    if id !in store then (Failure(UnknownSession), store)
    else
      var a := Apply(store[id], op, now);
      (a.result, store[id := a.after])
  }

  // ---------------------------------------------------------------------
  // Properties of the session state machine

  /** An attribute that was set is read back unchanged, unless the session
      went idle for too long in between. */
  lemma SetThenGet(s: Session, k: Key, v: Value, t1: int, t2: int)
    requires Apply(s, SetAttribute(k, v), t1).result.Success?
    ensures var s1 := Apply(s, SetAttribute(k, v), t1).after;
            Apply(s1, GetAttribute(k), t2).result ==
              if IdleTooLong(s1, t2) then Failure(ExpiredSession) else Success(Attribute(Some(v)))
  {
  }

  /** An interleaved successful operation touches the session but keeps the
      attribute, so a read after it still sees the written value. */
  lemma SetTouchGet(s: Session, k: Key, v: Value, t1: int, t2: int, t3: int)
    requires Apply(s, SetAttribute(k, v), t1).result.Success?
    requires Apply(Apply(s, SetAttribute(k, v), t1).after, Touch, t2).result.Success?
    requires !IdleTooLong(Apply(Apply(s, SetAttribute(k, v), t1).after, Touch, t2).after, t3)
    ensures var s2 := Apply(Apply(s, SetAttribute(k, v), t1).after, Touch, t2).after;
            Apply(s2, GetAttribute(k), t3).result == Success(Attribute(Some(v)))
  {
  }

  /** Validate before mutate: once a session sat idle past its timeout, no
      operation (a larger `setTimeout` included) revives it; it reports
      expiration now and at every later access. */
  lemma ExpiredIsNotRevived(s: Session, op: Operation, now: int, later: Operation, t: int)
    requires s.state == Active && IdleTooLong(s, now)
    ensures Apply(s, op, now).result == Failure(ExpiredSession)
    ensures Apply(s, op, now).after.timeout == s.timeout
    ensures Apply(Apply(s, op, now).after, later, t) == Access(Failure(ExpiredSession), Apply(s, op, now).after)
  {
  }

  /** A short timeout set at `t0` makes the next access after more than that
      many milliseconds fail with expiration, whatever the access is. */
  lemma ShortTimeoutExpires(s: Session, timeout: int, t0: int, t1: int, op: Operation)
    requires Apply(s, SetTimeout(timeout), t0).result.Success?
    requires timeout > 0 && t1 - t0 > timeout
    ensures Apply(Apply(s, SetTimeout(timeout), t0).after, op, t1).result == Failure(ExpiredSession)
    ensures Apply(Apply(s, SetTimeout(timeout), t0).after, op, t1).after.state == Expired
  {
  }

  /** A stopped session is gone for good: a second stop, or any other
      operation, reports an unknown session and changes nothing. */
  lemma StopIsFinal(s: Session, now: int, op: Operation, later: int)
    requires Apply(s, Stop, now).result.Success?
    ensures Apply(s, Stop, now).after.state == Stopped
    ensures Apply(Apply(s, Stop, now).after, op, later) == Access(Failure(UnknownSession), Apply(s, Stop, now).after)
  {
  }

  // ---------------------------------------------------------------------
  // The session manager

  /** The session manager with its in-memory store.  Sessions are never
      deleted: stopped and expired ones stay, so an id is never handed out
      twice. */
  class SessionManager {
    var sessions: map<SessionId, Session>
    var nextId: SessionId

    ghost predicate Valid()
      reads this
    {
      forall id :: id in sessions ==> id < nextId && sessions[id].id == id
    }

    constructor ()
      ensures Valid() && sessions == map[]
    {
      sessions := map[];
      nextId := 0;
    }

    /** `start`: a new session under an id nobody has seen. */
    method Start(now: int) returns (id: SessionId)
      requires Valid()
      modifies this
      ensures Valid()
      ensures id !in old(sessions)
      ensures sessions == old(sessions)[id := NewSession(id, now)]
    {
      id := nextId;
      sessions := sessions[id := NewSession(id, now)];
      nextId := nextId + 1;
    }

    /** One operation on the session `id`, validated first. */
    method Perform(id: SessionId, op: Operation, now: int) returns (r: Result<Reply, SessionError>)
      requires Valid()
      modifies this
      ensures Valid()
      ensures (r, sessions) == Step(old(sessions), id, op, now)
      ensures nextId == old(nextId)
    {
      if id !in sessions {
        r := Failure(UnknownSession);
      } else {
        var a := Apply(sessions[id], op, now);
        r := a.result;
        sessions := sessions[id := a.after];
      }
    }
  }
}
