/** The server's monitor (server/monitor_state.go): a store of sessions and endpoints whose
    operations run under one lock, and its ordered snapshot. */
module Monitor {
  import opened Common
  import opened Text
  import opened Sorting

  datatype SessionStatus = SessionPending | SessionConnected | SessionFailed | SessionDisconnected

  datatype EndpointStatus = EndpointPending | EndpointActive | EndpointFailed | EndpointClosed

  /** Times are numbers above zero; zero is the time that has not been set. */
  datatype Session = Session(
    id: string, remoteAddr: string, status: SessionStatus, error: string,
    startedAt: nat, connectedAt: nat, updatedAt: nat)

  datatype Endpoint = Endpoint(
    sessionId: string, descriptor: string, status: EndpointStatus, lastError: string, updatedAt: nat)

  datatype State = State(sessions: map<string, Session>, endpoints: map<string, Endpoint>)

  function Key(sessionId: string, descriptor: string): string { sessionId + "|" + descriptor }

  // ---- the operations ----

  /** The stored session, or a new record that its caller fills in. */
  function Stored(s: State, id: string): Session {
    if id in s.sessions then s.sessions[id] else Session(id, "", SessionPending, "", 0, 0, 0)
  }

  function Started(x: Session, now: nat): Session {
    x.(startedAt := if x.startedAt == 0 then now else x.startedAt, updatedAt := now)
  }

  function MarkPending(s: State, id: string, remoteAddr: string, now: nat): State {
    s.(sessions := s.sessions[id := Started(Stored(s, id).(remoteAddr := remoteAddr, status := SessionPending, error := ""), now)])
  }

  function MarkConnected(s: State, id: string, now: nat): State {
    var x := Started(Stored(s, id).(status := SessionConnected, error := ""), now);
    s.(sessions := s.sessions[id := x.(connectedAt := if x.connectedAt == 0 then now else x.connectedAt)])
  }

  function MarkFailed(s: State, id: string, message: string, now: nat): State {
    s.(sessions := s.sessions[id := Started(Stored(s, id).(status := SessionFailed, error := message), now)])
  }

  predicate Unsettled(e: Endpoint) { e.status == EndpointActive || e.status == EndpointPending }

  function CloseIfOf(e: Endpoint, id: string, now: nat): Endpoint {
    if e.sessionId == id && Unsettled(e) then e.(status := EndpointClosed, updatedAt := now) else e
  }

  function MarkDisconnected(s: State, id: string, now: nat): State {
    State(
      s.sessions[id := Stored(s, id).(status := SessionDisconnected, updatedAt := now)],
      map k | k in s.endpoints :: CloseIfOf(s.endpoints[k], id, now))
  }

  function UpdateEndpoint(s: State, id: string, descriptor: string, status: EndpointStatus, error: string, now: nat): State {
    var key := Key(id, descriptor);
    var e := if key in s.endpoints then s.endpoints[key] else Endpoint(id, descriptor, status, error, now);
    s.(endpoints := s.endpoints[key := e.(status := status, lastError := error, updatedAt := now)])
  }

  /** Every record is stored under its own key; all operations keep this. */
  ghost predicate Keyed(s: State) {
    && (forall k :: k in s.sessions ==> s.sessions[k].id == k)
    && (forall k :: k in s.endpoints ==> Key(s.endpoints[k].sessionId, s.endpoints[k].descriptor) == k)
  }

  // ---- the snapshot ----

  datatype Counters = Counters(
    pendingSessions: nat, connectedSessions: nat, failedSessions: nat, disconnectedSessions: nat,
    pendingEndpoints: nat, activeEndpoints: nat, failedEndpoints: nat, closedEndpoints: nat)

  datatype Snapshot = Snapshot(sessions: seq<Session>, endpoints: seq<Endpoint>, counters: Counters)

  predicate SessionBefore(x: Session, y: Session) { Less(x.id, y.id) }

  predicate EndpointBefore(x: Endpoint, y: Endpoint) {
    if x.sessionId == y.sessionId then Less(x.descriptor, y.descriptor) else Less(x.sessionId, y.sessionId)
  }

  function SessionIs(status: SessionStatus): Session -> nat {
    (x: Session) => if x.status == status then 1 else 0
  }

  function EndpointIs(status: EndpointStatus): Endpoint -> nat {
    (x: Endpoint) => if x.status == status then 1 else 0
  }

  function Tally(sessions: seq<Session>, endpoints: seq<Endpoint>): Counters {
    Counters(
      Sum(sessions, SessionIs(SessionPending)), Sum(sessions, SessionIs(SessionConnected)),
      Sum(sessions, SessionIs(SessionFailed)), Sum(sessions, SessionIs(SessionDisconnected)),
      Sum(endpoints, EndpointIs(EndpointPending)), Sum(endpoints, EndpointIs(EndpointActive)),
      Sum(endpoints, EndpointIs(EndpointFailed)), Sum(endpoints, EndpointIs(EndpointClosed)))
  }

  /** The records of the store, each once, in strict order, with their tally. */
  ghost predicate IsSnapshot(n: Snapshot, s: State) {
    && StrictlySorted(n.sessions, SessionBefore) && (forall x :: x in n.sessions <==> x in s.sessions.Values)
    && StrictlySorted(n.endpoints, EndpointBefore) && (forall x :: x in n.endpoints <==> x in s.endpoints.Values)
    && n.counters == Tally(n.sessions, n.endpoints)
  }

  lemma SessionOrder()
    ensures StrictOrder(SessionBefore)
  {
    forall x, y | SessionBefore(x, y) ensures !SessionBefore(y, x) { LessAsymmetric(x.id, y.id); }
    forall x, y, z | SessionBefore(x, y) && SessionBefore(y, z) ensures SessionBefore(x, z) {
      LessTransitive(x.id, y.id, z.id);
    }
  }

  lemma EndpointOrder()
    ensures StrictOrder(EndpointBefore)
  {
    forall x, y | EndpointBefore(x, y) ensures !EndpointBefore(y, x) {
      if x.sessionId == y.sessionId { LessAsymmetric(x.descriptor, y.descriptor); } else { LessAsymmetric(x.sessionId, y.sessionId); }
    }
    forall x, y, z | EndpointBefore(x, y) && EndpointBefore(y, z) ensures EndpointBefore(x, z) {
      if x.sessionId == y.sessionId && y.sessionId == z.sessionId {
        LessTransitive(x.descriptor, y.descriptor, z.descriptor);
      } else if x.sessionId != y.sessionId && y.sessionId != z.sessionId {
        LessTransitive(x.sessionId, y.sessionId, z.sessionId);
        LessAsymmetric(x.sessionId, z.sessionId);
      }
    }
  }

  /** Two snapshots of one store are equal: the order in which its maps are iterated shows
      nowhere. */
  lemma SnapshotIsDetermined(m: Snapshot, n: Snapshot, s: State)
    requires IsSnapshot(m, s) && IsSnapshot(n, s)
    ensures m == n
  {
    SessionOrder();
    EndpointOrder();
    SortedUnique(m.sessions, n.sessions, SessionBefore);
    SortedUnique(m.endpoints, n.endpoints, EndpointBefore);
  }

  lemma {:induction false} SessionTally(xs: seq<Session>)
    ensures Sum(xs, SessionIs(SessionPending)) + Sum(xs, SessionIs(SessionConnected))
          + Sum(xs, SessionIs(SessionFailed)) + Sum(xs, SessionIs(SessionDisconnected)) == |xs|
  {
    if xs != [] { SessionTally(xs[..|xs| - 1]); }
  }

  lemma {:induction false} EndpointTally(xs: seq<Endpoint>)
    ensures Sum(xs, EndpointIs(EndpointPending)) + Sum(xs, EndpointIs(EndpointActive))
          + Sum(xs, EndpointIs(EndpointFailed)) + Sum(xs, EndpointIs(EndpointClosed)) == |xs|
  {
    if xs != [] { EndpointTally(xs[..|xs| - 1]); }
  }

  /** The counters of each kind add up to the number of records of that kind. */
  lemma CountersAddUp(n: Snapshot, s: State)
    requires IsSnapshot(n, s)
    ensures n.counters.pendingSessions + n.counters.connectedSessions + n.counters.failedSessions + n.counters.disconnectedSessions
            == |n.sessions|
    ensures n.counters.pendingEndpoints + n.counters.activeEndpoints + n.counters.failedEndpoints + n.counters.closedEndpoints
            == |n.endpoints|
  {
    SessionTally(n.sessions);
    EndpointTally(n.endpoints);
  }

  // ---- records of different keys are ordered ----

  lemma SessionsComparable(s: State, x: Session, y: Session)
    requires Keyed(s) && x in s.sessions.Values && y in s.sessions.Values && x != y
    ensures SessionBefore(x, y) || SessionBefore(y, x)
  {
    LessTotal(x.id, y.id);
  }

  lemma EndpointsComparable(s: State, x: Endpoint, y: Endpoint)
    requires Keyed(s) && x in s.endpoints.Values && y in s.endpoints.Values && x != y
    ensures EndpointBefore(x, y) || EndpointBefore(y, x)
  {
    LessTotal(x.sessionId, y.sessionId);
    LessTotal(x.descriptor, y.descriptor);
  }

  predicate Distinct<T(==)>(xs: seq<T>) { forall i, j :: 0 <= i < j < |xs| ==> xs[i] != xs[j] }

  lemma SortedSnapshot(s: State, sessions: seq<Session>, endpoints: seq<Endpoint>)
    requires Keyed(s) && Distinct(sessions) && Distinct(endpoints)
    requires forall x :: x in sessions <==> x in s.sessions.Values
    requires forall x :: x in endpoints <==> x in s.endpoints.Values
    ensures IsSnapshot(
      Snapshot(Sort(sessions, SessionBefore), Sort(endpoints, EndpointBefore), Tally(sessions, endpoints)), s)
  {
    SessionOrder();
    EndpointOrder();
    forall i, j | 0 <= i < j < |sessions| ensures SessionBefore(sessions[i], sessions[j]) || SessionBefore(sessions[j], sessions[i]) {
      SessionsComparable(s, sessions[i], sessions[j]);
    }
    forall i, j | 0 <= i < j < |endpoints| ensures EndpointBefore(endpoints[i], endpoints[j]) || EndpointBefore(endpoints[j], endpoints[i]) {
      EndpointsComparable(s, endpoints[i], endpoints[j]);
    }
    SortSorts(sessions, SessionBefore);
    SortElements(sessions, SessionBefore);
    SortSorts(endpoints, EndpointBefore);
    SortElements(endpoints, EndpointBefore);
    TallyOfSorted(sessions, endpoints);
  }

  lemma TallyOfSorted(sessions: seq<Session>, endpoints: seq<Endpoint>)
    ensures Tally(Sort(sessions, SessionBefore), Sort(endpoints, EndpointBefore)) == Tally(sessions, endpoints)
  {
    SortSum(sessions, SessionBefore, SessionIs(SessionPending));
    SortSum(sessions, SessionBefore, SessionIs(SessionConnected));
    SortSum(sessions, SessionBefore, SessionIs(SessionFailed));
    SortSum(sessions, SessionBefore, SessionIs(SessionDisconnected));
    SortSum(endpoints, EndpointBefore, EndpointIs(EndpointPending));
    SortSum(endpoints, EndpointBefore, EndpointIs(EndpointActive));
    SortSum(endpoints, EndpointBefore, EndpointIs(EndpointFailed));
    SortSum(endpoints, EndpointBefore, EndpointIs(EndpointClosed));
  }

  ghost predicate Visited(x: Endpoint, es: map<string, Endpoint>, left: set<string>) {
    var k := Key(x.sessionId, x.descriptor);
    k in es && k !in left && x == es[k]
  }

  lemma VisitOne(es: map<string, Endpoint>, left: set<string>, k: string)
    requires k in es && k !in left && Key(es[k].sessionId, es[k].descriptor) == k
    ensures forall x :: Visited(x, es, left) <==> x == es[k] || Visited(x, es, left + {k})
    ensures !Visited(es[k], es, left + {k})
  {}

  /** One more record that was not collected yet. */
  lemma CollectOne<T>(xs: seq<T>, x: T)
    requires Distinct(xs) && x !in xs
    ensures Distinct(xs + [x])
    ensures forall y :: y in xs + [x] <==> y in xs || y == x
  {}

  lemma SessionTallied(xs: seq<Session>, x: Session, status: SessionStatus)
    ensures Sum(xs + [x], SessionIs(status)) == Sum(xs, SessionIs(status)) + (if x.status == status then 1 else 0)
  {
    SumAppend(xs, x, SessionIs(status));
  }

  lemma EndpointTallied(xs: seq<Endpoint>, x: Endpoint, status: EndpointStatus)
    ensures Sum(xs + [x], EndpointIs(status)) == Sum(xs, EndpointIs(status)) + (if x.status == status then 1 else 0)
  {
    SumAppend(xs, x, EndpointIs(status));
  }

  /** The tallies of one record more. */
  lemma SessionsTallied(xs: seq<Session>, x: Session)
    ensures forall status :: Sum(xs + [x], SessionIs(status)) == Sum(xs, SessionIs(status)) + (if x.status == status then 1 else 0)
  {
    forall status ensures Sum(xs + [x], SessionIs(status)) == Sum(xs, SessionIs(status)) + (if x.status == status then 1 else 0) {
      SessionTallied(xs, x, status);
    }
  }

  lemma EndpointsTallied(xs: seq<Endpoint>, x: Endpoint)
    ensures forall status :: Sum(xs + [x], EndpointIs(status)) == Sum(xs, EndpointIs(status)) + (if x.status == status then 1 else 0)
  {
    forall status ensures Sum(xs + [x], EndpointIs(status)) == Sum(xs, EndpointIs(status)) + (if x.status == status then 1 else 0) {
      EndpointTallied(xs, x, status);
    }
  }

  ghost predicate VisitedSession(x: Session, ss: map<string, Session>, left: set<string>) {
    x.id in ss && x.id !in left && x == ss[x.id]
  }

  lemma VisitOneSession(ss: map<string, Session>, left: set<string>, k: string)
    requires k in ss && k !in left && ss[k].id == k
    ensures forall x :: VisitedSession(x, ss, left) <==> x == ss[k] || VisitedSession(x, ss, left + {k})
    ensures !VisitedSession(ss[k], ss, left + {k})
  {}

  // ---- the store as an object ----

  class MonitorState {
    var sessions: map<string, Session>
    var endpoints: map<string, Endpoint>

    function Current(): State
      reads this
    {
      State(sessions, endpoints)
    }

    constructor ()
      ensures Current() == State(map[], map[]) && Keyed(Current())
    {
      sessions, endpoints := map[], map[];
    }

    method MarkSessionPending(id: string, remoteAddr: string, now: nat)
      requires Keyed(Current())
      modifies `sessions
      ensures Keyed(Current()) && Current() == old(MarkPending(Current(), id, remoteAddr, now))
    {
      var s := if id in sessions then sessions[id] else Session(id, "", SessionPending, "", 0, 0, 0);
      s := s.(remoteAddr := remoteAddr);
      s := s.(status := SessionPending);
      s := s.(error := "");
      if s.startedAt == 0 { s := s.(startedAt := now); }
      sessions := sessions[id := s.(updatedAt := now)];
    }

    method MarkSessionConnected(id: string, now: nat)
      requires Keyed(Current())
      modifies `sessions
      ensures Keyed(Current()) && Current() == old(MarkConnected(Current(), id, now))
    {
      var s := if id in sessions then sessions[id] else Session(id, "", SessionPending, "", 0, 0, 0);
      s := s.(status := SessionConnected);
      s := s.(error := "");
      if s.startedAt == 0 { s := s.(startedAt := now); }
      if s.connectedAt == 0 { s := s.(connectedAt := now); }
      sessions := sessions[id := s.(updatedAt := now)];
    }

    method MarkSessionFailed(id: string, message: string, now: nat)
      requires Keyed(Current())
      modifies `sessions
      ensures Keyed(Current()) && Current() == old(MarkFailed(Current(), id, message, now))
    {
      var s := if id in sessions then sessions[id] else Session(id, "", SessionPending, "", 0, 0, 0);
      s := s.(status := SessionFailed);
      s := s.(error := message);
      if s.startedAt == 0 { s := s.(startedAt := now); }
      sessions := sessions[id := s.(updatedAt := now)];
    }

    /** Visits the endpoints in any order and closes those of the session that are not settled. */
    method MarkSessionDisconnected(id: string, now: nat)
      requires Keyed(Current())
      modifies this
      ensures Keyed(Current()) && Current() == old(MarkDisconnected(Current(), id, now))
    {
      var s := if id in sessions then sessions[id] else Session(id, "", SessionPending, "", 0, 0, 0);
      s := s.(status := SessionDisconnected);
      sessions := sessions[id := s.(updatedAt := now)];
      ghost var before := endpoints;
      label marked:
      var left := endpoints.Keys;
      while left != {}
        invariant left <= before.Keys && endpoints.Keys == before.Keys
        invariant forall k :: k in before ==>
          endpoints[k] == if k in left then before[k] else CloseIfOf(before[k], id, now)
        invariant sessions == old@marked(sessions)
        decreases left
      {
        var k :| k in left;
        left := left - {k};
        var e := endpoints[k];
        if e.sessionId != id {
          continue;
        }
        if e.status == EndpointActive || e.status == EndpointPending {
          e := e.(status := EndpointClosed);
          endpoints := endpoints[k := e.(updatedAt := now)];
        }
      }
      assert endpoints == map k | k in before :: CloseIfOf(before[k], id, now);
    }

    method UpdateEndpointStatus(id: string, descriptor: string, status: EndpointStatus, error: string, now: nat)
      requires Keyed(Current())
      modifies `endpoints
      ensures Keyed(Current()) && Current() == old(UpdateEndpoint(Current(), id, descriptor, status, error, now))
    {
      var key := id + "|" + descriptor;
      var e := if key in endpoints then endpoints[key] else Endpoint(id, descriptor, status, error, now);
      e := e.(status := status);
      e := e.(lastError := error);
      endpoints := endpoints[key := e.(updatedAt := now)];
    }

    /** Collects and counts the records in any order of the maps, then sorts them. */
    method TakeSnapshot() returns (n: Snapshot)
      requires Keyed(Current())
      ensures IsSnapshot(n, Current())
    {
      var allSessions, pending, connected, failed, disconnected := CollectSessions();
      var allEndpoints, opening, active, refused, closed := CollectEndpoints();
      SortedSnapshot(Current(), allSessions, allEndpoints);
      n := Snapshot(
        Sort(allSessions, SessionBefore), Sort(allEndpoints, EndpointBefore),
        Counters(pending, connected, failed, disconnected, opening, active, refused, closed));
    }

    method CollectSessions() returns (xs: seq<Session>, pending: nat, connected: nat, failed: nat, disconnected: nat)
      requires Keyed(Current())
      ensures Distinct(xs) && forall x :: x in xs <==> x in sessions.Values
      ensures pending == Sum(xs, SessionIs(SessionPending)) && connected == Sum(xs, SessionIs(SessionConnected))
      ensures failed == Sum(xs, SessionIs(SessionFailed)) && disconnected == Sum(xs, SessionIs(SessionDisconnected))
    {
      xs, pending, connected, failed, disconnected := [], 0, 0, 0, 0;
      var left := sessions.Keys;
      while left != {}
        invariant left <= sessions.Keys
        invariant forall x :: x in xs <==> VisitedSession(x, sessions, left)
        invariant Distinct(xs)
        invariant pending == Sum(xs, SessionIs(SessionPending)) && connected == Sum(xs, SessionIs(SessionConnected))
        invariant failed == Sum(xs, SessionIs(SessionFailed)) && disconnected == Sum(xs, SessionIs(SessionDisconnected))
        decreases left
      {
        var k :| k in left;
        left := left - {k};
        var x := sessions[k];
        VisitOneSession(sessions, left, k);
        CollectOne(xs, x);
        SessionsTallied(xs, x);
        match x.status {
          case SessionPending => pending := pending + 1;
          case SessionConnected => connected := connected + 1;
          case SessionFailed => failed := failed + 1;
          case SessionDisconnected => disconnected := disconnected + 1;
        }
        xs := xs + [x];
      }
    }

    method CollectEndpoints() returns (xs: seq<Endpoint>, pending: nat, active: nat, failed: nat, closed: nat)
      requires Keyed(Current())
      ensures Distinct(xs) && forall x :: x in xs <==> x in endpoints.Values
      ensures pending == Sum(xs, EndpointIs(EndpointPending)) && active == Sum(xs, EndpointIs(EndpointActive))
      ensures failed == Sum(xs, EndpointIs(EndpointFailed)) && closed == Sum(xs, EndpointIs(EndpointClosed))
    {
      xs, pending, active, failed, closed := [], 0, 0, 0, 0;
      var left := endpoints.Keys;
      while left != {}
        invariant left <= endpoints.Keys
        invariant forall x :: x in xs <==> Visited(x, endpoints, left)
        invariant Distinct(xs)
        invariant pending == Sum(xs, EndpointIs(EndpointPending)) && active == Sum(xs, EndpointIs(EndpointActive))
        invariant failed == Sum(xs, EndpointIs(EndpointFailed)) && closed == Sum(xs, EndpointIs(EndpointClosed))
        decreases left
      {
        var k :| k in left;
        left := left - {k};
        var x := endpoints[k];
        VisitOne(endpoints, left, k);
        CollectOne(xs, x);
        EndpointsTallied(xs, x);
        match x.status {
          case EndpointPending => pending := pending + 1;
          case EndpointActive => active := active + 1;
          case EndpointFailed => failed := failed + 1;
          case EndpointClosed => closed := closed + 1;
        }
        xs := xs + [x];
      }
    }
  }
}
