/**
 * TradeLocker account sessions: one stream connection per account, reconnects guarded by a generation,
 * sessions replaced by reconcile, all interleaved at the awaits of a connect attempt. A closed connection
 * emits no events.
 */
module TradeLockerSessions {
  import opened Common

  /** Why a session waits for a change from outside. */
  datatype Park = NoMatchingToken | SubscribeRejected | Deactivated

  datatype Session = Session(account: string, generation: nat, timer: bool, connection: Option<nat>,
      parked: Option<Park>)

  datatype Stage = Authorizing | Opening | Subscribing | Stamping | Ended

  /** One run of connect, with the generation it took and the connection it made. */
  datatype Attempt = Attempt(session: nat, generation: nat, connection: Option<nat>, stage: Stage)

  datatype Connection = Connection(session: nat, generation: nat, closed: bool)

  datatype State = State(
    stopped: bool, tracked: map<string, nat>, sessions: seq<Session>, attempts: seq<Attempt>,
    connections: seq<Connection>,
    deactivated: set<string>)

  datatype Reply = Granted | NoToken | Failed | Fatal

  datatype Event =
    | Start(account: string)
    | Stop(account: string)
    | Authorized(attempt: nat, reply: Reply)
    | Opened(attempt: nat, ok: bool)
    | Subscribed(attempt: nat, reply: Reply)
    | Stamped(attempt: nat, ok: bool, landed: bool)
    | Lost(connection: nat)
    | TimerFired(session: nat)
    | Shutdown

  predicate Tracked(s: State, id: nat) {
    id < |s.sessions| && s.sessions[id].account in s.tracked && s.tracked[s.sessions[id].account] == id
  }

  predicate Superseded(s: State, t: Attempt) {
    s.stopped || !Tracked(s, t.session) || s.sessions[t.session].generation != t.generation
  }

  predicate AttemptEvent(e: Event) {
    e.Authorized? || e.Opened? || e.Subscribed? || e.Stamped?
  }

  predicate AtStage(t: Attempt, e: Event) {
    match e
    case Authorized(_, _) => t.stage.Authorizing?
    case Opened(_, _) => t.stage.Opening?
    case Subscribed(_, reply) => t.stage.Subscribing? && !reply.NoToken?
    case Stamped(_, ok, landed) => t.stage.Stamping? && (ok ==> landed)
    case _ => false
  }

  predicate Enabled(s: State, e: Event) {
    if AttemptEvent(e) then e.attempt < |s.attempts| && AtStage(s.attempts[e.attempt], e)
    else match e
      case Start(a) => a !in s.tracked
      case Stop(a) => a in s.tracked
      case Lost(c) => c < |s.connections| && !s.connections[c].closed
      case TimerFired(id) => id < |s.sessions| && s.sessions[id].timer
      case _ => true
  }

  // ---- the pieces ----

  function Close(cs: seq<Connection>, c: Option<nat>): seq<Connection> {
    if c.Some? && c.value < |cs| then cs[c.value := cs[c.value].(closed := true)] else cs
  }

  /** connect up to its first await. */
  function Connect(s: State, id: nat): State {
    if s.stopped || !Tracked(s, id) then s
    else
      var generation := s.sessions[id].generation + 1;
      s.(sessions := s.sessions[id := s.sessions[id].(generation := generation, parked := None)],
         attempts := s.attempts + [Attempt(id, generation, None, Authorizing)])
  }

  function Schedule(s: State, id: nat): State {
    if s.stopped || !Tracked(s, id) then s else s.(sessions := s.sessions[id := s.sessions[id].(timer := true)])
  }

  /** What an attempt does when an await settles. */
  datatype Outcome =
    | Abandon                     // superseded: close what it opened
    | Create                      // make the connection and open it
    | Proceed(next: Stage)
    | Stay(park: Park)            // stop without a retry
    | Retry
    | Settle(stamped: bool)       // the deactivation stamp was written, or is to be retried

  function OutcomeOf(superseded: bool, e: Event): Outcome
    requires AttemptEvent(e)
  {
    match e
    case Authorized(_, reply) =>
      if superseded then Abandon
      else if reply == Granted then Create
      else if reply == NoToken then Stay(NoMatchingToken)
      else if reply == Fatal then Proceed(Stamping)
      else Retry
    case Opened(_, ok) => if superseded then Abandon else if ok then Proceed(Subscribing) else Retry
    case Subscribed(_, reply) =>
      if superseded then Abandon
      else if reply == Granted then Proceed(Ended)
      else if reply == Fatal then Stay(SubscribeRejected)
      else Retry
    case Stamped(_, ok, _) => Settle(ok)
    case _ => Abandon
  }

  /** The state after an attempt's outcome. */
  function Commit(s: State, i: nat, o: Outcome): State
    requires i < |s.attempts|
  {
    var t := s.attempts[i];
    var ended := s.(attempts := s.attempts[i := t.(stage := Ended)]);
    match o
    case Abandon => ended.(connections := Close(s.connections, t.connection))
    case Proceed(next) => s.(attempts := s.attempts[i := t.(stage := next)])
    case Create =>
      var c := |s.connections|;
      if t.session >= |s.sessions| then s else
      s.(attempts := s.attempts[i := t.(stage := Opening, connection := Some(c))],
         connections := s.connections + [Connection(t.session, t.generation, false)],
         sessions := s.sessions[t.session := s.sessions[t.session].(connection := Some(c))])
    case Stay(park) =>
      if t.session >= |s.sessions| then s else
      ended.(connections := Close(s.connections, t.connection),
             sessions := s.sessions[t.session := s.sessions[t.session].(connection := None, parked := Some(park))])
    case Retry =>
      if t.session >= |s.sessions| then s else
      Schedule(ended.(connections := Close(s.connections, t.connection),
                      sessions := s.sessions[t.session := s.sessions[t.session].(connection := None)]), t.session)
    case Settle(ok) =>
      if t.session >= |s.sessions| then s
      else if ok then ended.(sessions := s.sessions[t.session := s.sessions[t.session].(parked := Some(Deactivated))])
      else Schedule(ended, t.session)
  }

  /** The deactivation stamp reaches the account's row, whether or not the call reports it. */
  function StampRow(s: State, e: Event): State
    requires AttemptEvent(e) && Enabled(s, e)
  {
    var id := s.attempts[e.attempt].session;
    if e.Stamped? && e.landed && id < |s.sessions| then
      s.(deactivated := s.deactivated + {s.sessions[id].account})
    else s
  }

  function AttemptStep(s: State, e: Event): State
    requires AttemptEvent(e) && Enabled(s, e)
  {
    Commit(StampRow(s, e), e.attempt, OutcomeOf(Superseded(s, s.attempts[e.attempt]), e))
  }

  /** stopSession: supersede the attempt, clear the timer, close the connection, forget the session. */
  function StopSession(s: State, a: string): State
    requires a in s.tracked
  {
    var id := s.tracked[a];
    if id >= |s.sessions| then s
    else
      var stopping := s.sessions[id];
      s.(tracked := s.tracked - {a},
         sessions := s.sessions[id :=
           stopping.(generation := stopping.generation + 1, timer := false, connection := None)],
         connections := Close(s.connections, stopping.connection))
  }

  function LostStep(s: State, c: nat): State
    requires c < |s.connections|
  {
    var conn := s.connections[c];
    if !Tracked(s, conn.session) || s.sessions[conn.session].generation != conn.generation then s
    else
      var session := s.sessions[conn.session];
      Schedule(s.(connections := Close(s.connections, session.connection),
                  sessions := s.sessions[conn.session := session.(connection := None)]), conn.session)
  }

  /** The connections the tracked sessions hold. */
  function Held(s: State): set<nat> {
    set a | a in s.tracked && s.tracked[a] < |s.sessions| && s.sessions[s.tracked[a]].connection.Some? ::
      s.sessions[s.tracked[a]].connection.value
  }

  function ClosedAll(cs: seq<Connection>, held: set<nat>): seq<Connection> {
    seq(|cs|, c requires 0 <= c < |cs| => if c in held then cs[c].(closed := true) else cs[c])
  }

  function ShutdownStep(s: State): State {
    s.(stopped := true, tracked := map[],
       connections := ClosedAll(s.connections, Held(s)),
       sessions := seq(|s.sessions|, i requires 0 <= i < |s.sessions| =>
         if Tracked(s, i) then s.sessions[i].(timer := false) else s.sessions[i]))
  }

  function Step(s: State, e: Event): State {
    if !Enabled(s, e) then s
    else if AttemptEvent(e) then AttemptStep(s, e)
    else match e
      case Start(a) =>
        var id := |s.sessions|;
        Connect(s.(tracked := s.tracked[a := id], sessions := s.sessions + [Session(a, 0, false, None, None)]), id)
      case Stop(a) => StopSession(s, a)
      case Lost(c) => LostStep(s, c)
      case TimerFired(id) => Connect(s.(sessions := s.sessions[id := s.sessions[id].(timer := false)]), id)
      case Shutdown => ShutdownStep(s)
      case _ => s
  }

  function Run(s: State, es: seq<Event>): State
    decreases |es|
  {
    if es == [] then s else Run(Step(s, es[0]), es[1..])
  }

  function Boot(): State {
    State(false, map[], [], [], [], {})
  }

  // ---- invariants ----

  predicate References(s: State) {
    && (forall a :: a in s.tracked ==> s.tracked[a] < |s.sessions| && s.sessions[s.tracked[a]].account == a)
    && (forall i :: 0 <= i < |s.attempts| ==> s.attempts[i].session < |s.sessions|)
    && (forall c :: 0 <= c < |s.connections| ==> s.connections[c].session < |s.sessions|)
  }

  /** An open connection is the current one of a tracked session, of its current generation. */
  predicate OpenOk(s: State, c: nat)
    requires c < |s.connections|
  {
    var conn := s.connections[c];
    !conn.closed ==>
      && !s.stopped && Tracked(s, conn.session) && s.sessions[conn.session].connection == Some(c)
      && s.sessions[conn.session].generation == conn.generation
  }

  /** A session's connection is an open one; a timer runs only for a tracked session that has none. */
  predicate SessionOk(s: State, id: nat)
    requires id < |s.sessions|
  {
    var session := s.sessions[id];
    && (session.timer ==> session.connection.None? && Tracked(s, id) && !s.stopped)
    && (session.connection.Some? && Tracked(s, id) && !s.stopped ==>
          session.connection.value < |s.connections| && !s.connections[session.connection.value].closed
          && s.connections[session.connection.value].session == id)
    && (session.parked == Some(Deactivated) ==> session.account in s.deactivated)
  }

  /** A session's attempts have generations of their own, none above its own. */
  predicate Generations(s: State) {
    && (forall i :: 0 <= i < |s.attempts| && s.attempts[i].session < |s.sessions| ==>
          s.attempts[i].generation <= s.sessions[s.attempts[i].session].generation)
    && (forall i, j :: 0 <= i < j < |s.attempts| && s.attempts[i].session == s.attempts[j].session ==>
          s.attempts[i].generation != s.attempts[j].generation)
  }

  /** An attempt that owns its session: before its connection exists there is neither connection nor timer. */
  predicate AttemptOk(s: State, i: nat)
    requires i < |s.attempts|
  {
    var t := s.attempts[i];
    && (t.connection.Some? ==> ConnectionOf(s, t, t.connection.value))
    && (!t.stage.Ended? && !Superseded(s, t) ==>
          if t.stage.Authorizing? || t.stage.Stamping? then
            t.connection.None? && s.sessions[t.session].connection.None? && !s.sessions[t.session].timer
          else
            t.connection.Some? && (s.sessions[t.session].connection == t.connection || s.sessions[t.session].timer))
    && (t.stage.Stamping? && Tracked(s, t.session) ==> s.sessions[t.session].generation == t.generation)
    && (t.stage.Stamping? || t.stage.Authorizing? ==> t.connection.None?)
  }

  predicate ConnectionOf(s: State, t: Attempt, c: nat) {
    c < |s.connections| && s.connections[c].session == t.session && s.connections[c].generation == t.generation
  }

  predicate Working(s: State, id: nat, i: nat) {
    i < |s.attempts| && s.attempts[i].session == id && !s.attempts[i].stage.Ended? && !Superseded(s, s.attempts[i])
  }

  /** A tracked session is attempting, connected, waiting on its timer, or parked. */
  ghost predicate Busy(s: State, id: nat) {
    id < |s.sessions| &&
    (s.sessions[id].connection.Some? || s.sessions[id].timer || s.sessions[id].parked.Some?
     || exists i :: Working(s, id, i))
  }

  ghost predicate Inv(s: State) {
    && References(s) && Generations(s)
    && (s.stopped ==> forall c :: 0 <= c < |s.connections| ==> s.connections[c].closed)
    && (forall c :: 0 <= c < |s.connections| ==> OpenOk(s, c))
    && (forall id :: 0 <= id < |s.sessions| ==> SessionOk(s, id))
    && (forall i :: 0 <= i < |s.attempts| ==> AttemptOk(s, i))
    && (forall id :: Tracked(s, id) && !s.stopped ==> Busy(s, id))
  }

  // ---- attempts ----

  /** The parts of the invariant about one thing at a time. */
  ghost predicate Parts(s: State) {
    && References(s) && Generations(s)
    && (forall c :: 0 <= c < |s.connections| ==> OpenOk(s, c))
    && (forall id :: 0 <= id < |s.sessions| ==> SessionOk(s, id))
    && (forall i :: 0 <= i < |s.attempts| ==> AttemptOk(s, i))
  }

  /** The outcome fits the attempt's stage and standing. */
  predicate Fits(s: State, t: Attempt, o: Outcome) {
    match o
    case Abandon => Superseded(s, t) && !t.stage.Stamping? && !t.stage.Ended?
    case Create => !Superseded(s, t) && t.stage.Authorizing?
    case Proceed(next) => !Superseded(s, t) &&
      ((t.stage.Authorizing? && next.Stamping?) || (t.stage.Opening? && next.Subscribing?)
          || (t.stage.Subscribing? && next.Ended?))
    case Stay(park) => !Superseded(s, t) && (t.stage.Authorizing? || t.stage.Subscribing?) && !park.Deactivated?
    case Retry => !Superseded(s, t) && (t.stage.Authorizing? || t.stage.Opening? || t.stage.Subscribing?)
    case Settle(ok) =>
      t.stage.Stamping? && t.session < |s.sessions| && (ok ==> s.sessions[t.session].account in s.deactivated)
  }

  lemma CommitReferences(s: State, i: nat, o: Outcome)
    requires Parts(s) && i < |s.attempts| && Fits(s, s.attempts[i], o)
    ensures References(Commit(s, i, o))
  {
  }

  lemma CommitGenerations(s: State, i: nat, o: Outcome)
    requires Parts(s) && i < |s.attempts| && Fits(s, s.attempts[i], o)
    ensures Generations(Commit(s, i, o))
  {
    var t := Commit(s, i, o);
    assert |t.attempts| == |s.attempts| && |t.sessions| == |s.sessions|;
    forall j | 0 <= j < |s.attempts|
      ensures t.attempts[j].session == s.attempts[j].session && t.attempts[j].generation == s.attempts[j].generation {}
    forall id | 0 <= id < |s.sessions| ensures t.sessions[id].generation == s.sessions[id].generation {}
  }

  lemma CommitOpen(s: State, i: nat, o: Outcome, c: nat)
    requires Parts(s) && i < |s.attempts| && Fits(s, s.attempts[i], o) && c < |Commit(s, i, o).connections|
    ensures OpenOk(Commit(s, i, o), c)
  {
    assert c < |s.connections| ==> OpenOk(s, c);
    assert AttemptOk(s, i) && SessionOk(s, s.attempts[i].session);
  }

  /** What a commit leaves as it was: other sessions, other attempts, and what came before. */
  lemma CommitFrame(s: State, i: nat, o: Outcome)
    requires Parts(s) && i < |s.attempts|
    ensures var t := Commit(s, i, o);
      && t.stopped == s.stopped && t.tracked == s.tracked && t.deactivated == s.deactivated
      && |t.sessions| == |s.sessions| && |t.attempts| == |s.attempts| && |t.connections| >= |s.connections|
      && (forall id :: 0 <= id < |s.sessions| && id != s.attempts[i].session ==> t.sessions[id] == s.sessions[id])
      && (forall j :: 0 <= j < |s.attempts| && j != i ==> t.attempts[j] == s.attempts[j])
  {
  }

  lemma CommitOwnSession(s: State, i: nat, o: Outcome)
    requires Parts(s) && i < |s.attempts| && Fits(s, s.attempts[i], o)
    ensures s.attempts[i].session < |Commit(s, i, o).sessions| && SessionOk(Commit(s, i, o), s.attempts[i].session)
  {
    var id := s.attempts[i].session;
    assert SessionOk(s, id) && AttemptOk(s, i);
    var c := s.sessions[id].connection;
    assert c.Some? && c.value < |s.connections| ==> OpenOk(s, c.value);
  }

  lemma CommitOtherSession(s: State, i: nat, o: Outcome, id: nat)
    requires Parts(s) && i < |s.attempts| && Fits(s, s.attempts[i], o) && id < |s.sessions|
        && id != s.attempts[i].session
    ensures id < |Commit(s, i, o).sessions| && SessionOk(Commit(s, i, o), id)
  {
    CommitFrame(s, i, o);
    assert SessionOk(s, id) && AttemptOk(s, i);
  }

  lemma CommitOwnAttempt(s: State, i: nat, o: Outcome)
    requires Parts(s) && i < |s.attempts| && Fits(s, s.attempts[i], o)
    ensures i < |Commit(s, i, o).attempts| && AttemptOk(Commit(s, i, o), i)
  {
    assert AttemptOk(s, i);
  }

  lemma CommitOtherAttempt(s: State, i: nat, o: Outcome, j: nat)
    requires Parts(s) && i < |s.attempts| && Fits(s, s.attempts[i], o) && j < |s.attempts| && j != i
    ensures j < |Commit(s, i, o).attempts| && AttemptOk(Commit(s, i, o), j)
  {
    CommitFrame(s, i, o);
    assert AttemptOk(s, i) && AttemptOk(s, j);
  }

  lemma CommitBusy(s: State, i: nat, o: Outcome, id: nat)
    requires Parts(s) && i < |s.attempts| && Fits(s, s.attempts[i], o)
    requires Tracked(Commit(s, i, o), id) && !s.stopped && Busy(s, id)
    ensures Busy(Commit(s, i, o), id)
  {
    assert AttemptOk(s, i);
    var t := Commit(s, i, o);
    if j :| Working(s, id, j) {
      if j != i { assert Working(t, id, j); }
      else if o.Create? || (o.Proceed? && !o.next.Ended?) { assert Working(t, id, i); }
    }
  }

  /** The closing of every connection at shutdown is part of the invariant already: OpenOk says so. */
  lemma CommitKeeps(s: State, i: nat, o: Outcome)
    requires Inv(s) && i < |s.attempts| && Fits(s, s.attempts[i], o)
    ensures Inv(Commit(s, i, o))
  {
    var t := Commit(s, i, o);
    CommitReferences(s, i, o);
    CommitGenerations(s, i, o);
    forall c | 0 <= c < |t.connections| ensures OpenOk(t, c) { CommitOpen(s, i, o, c); }
    forall id | 0 <= id < |t.sessions| ensures SessionOk(t, id) {
      CommitFrame(s, i, o);
      if id == s.attempts[i].session { CommitOwnSession(s, i, o); } else { CommitOtherSession(s, i, o, id); }
    }
    forall j | 0 <= j < |t.attempts| ensures AttemptOk(t, j) {
      CommitFrame(s, i, o);
      if j == i { CommitOwnAttempt(s, i, o); } else { CommitOtherAttempt(s, i, o, j); }
    }
    forall id | Tracked(t, id) && !t.stopped ensures Busy(t, id) {
      assert Tracked(s, id) && !s.stopped;
      CommitBusy(s, i, o, id);
    }
  }

  lemma StampKeeps(s: State, e: Event)
    requires Inv(s) && AttemptEvent(e) && Enabled(s, e)
    ensures Inv(StampRow(s, e))
  {
    var t := StampRow(s, e);
    forall c | 0 <= c < |t.connections| ensures OpenOk(t, c) { assert OpenOk(s, c); }
    forall id | 0 <= id < |t.sessions| ensures SessionOk(t, id) { assert SessionOk(s, id); }
    forall j | 0 <= j < |t.attempts| ensures AttemptOk(t, j) { assert AttemptOk(s, j); }
    forall id | Tracked(t, id) && !t.stopped ensures Busy(t, id) {
      assert Tracked(s, id) && Busy(s, id);
      if j :| Working(s, id, j) { assert Working(t, id, j); }
    }
  }

  lemma AttemptKeeps(s: State, e: Event)
    requires Inv(s) && AttemptEvent(e) && Enabled(s, e)
    ensures Inv(AttemptStep(s, e))
  {
    StampKeeps(s, e);
    CommitKeeps(StampRow(s, e), e.attempt, OutcomeOf(Superseded(s, s.attempts[e.attempt]), e));
  }

  // ---- sessions ----

  lemma StartKeeps(s: State, a: string)
    requires Inv(s) && a !in s.tracked
    ensures Inv(Step(s, Start(a)))
  {
    var t := Step(s, Start(a));
    forall c | 0 <= c < |t.connections| ensures OpenOk(t, c) { assert OpenOk(s, c); }
    forall id | 0 <= id < |t.sessions| ensures SessionOk(t, id) { if id < |s.sessions| { assert SessionOk(s, id); } }
    forall j | 0 <= j < |t.attempts| ensures AttemptOk(t, j) { StartAttempts(s, a, j); }
    forall id: nat | Tracked(t, id) && !t.stopped ensures Busy(t, id) { StartBusy(s, a, id); }
  }

  lemma StartAttempts(s: State, a: string, j: nat)
    requires Inv(s) && a !in s.tracked && j < |Step(s, Start(a)).attempts|
    ensures AttemptOk(Step(s, Start(a)), j)
  {
    assert j < |s.attempts| ==> AttemptOk(s, j);
  }

  lemma StartBusy(s: State, a: string, id: nat)
    requires Inv(s) && a !in s.tracked && Tracked(Step(s, Start(a)), id) && !s.stopped
    ensures Busy(Step(s, Start(a)), id)
  {
    var t := Step(s, Start(a));
    if id < |s.sessions| {
      assert Tracked(s, id) && Busy(s, id);
      if j :| Working(s, id, j) { assert Working(t, id, j); }
    } else {
      assert Working(t, id, |s.attempts|);
    }
  }

  lemma TimerKeeps(s: State, k: nat)
    requires Inv(s) && k < |s.sessions| && s.sessions[k].timer
    ensures Inv(Step(s, TimerFired(k)))
  {
    var t := Step(s, TimerFired(k));
    assert SessionOk(s, k);
    forall c | 0 <= c < |t.connections| ensures OpenOk(t, c) { assert OpenOk(s, c); }
    forall id | 0 <= id < |t.sessions| ensures SessionOk(t, id) { assert SessionOk(s, id); }
    forall j | 0 <= j < |t.attempts| ensures AttemptOk(t, j) { assert j < |s.attempts| ==> AttemptOk(s, j); }
    forall id | Tracked(t, id) && !t.stopped ensures Busy(t, id) {
      assert Tracked(s, id) && Busy(s, id);
      if id == k { assert Working(t, k, |s.attempts|); }
      else if j :| Working(s, id, j) { assert Working(t, id, j); }
    }
  }

  lemma StopKeeps(s: State, a: string)
    requires Inv(s) && a in s.tracked
    ensures Inv(StopSession(s, a))
  {
    var t := StopSession(s, a);
    var k := s.tracked[a];
    assert SessionOk(s, k);
    forall c | 0 <= c < |t.connections| ensures OpenOk(t, c) { assert OpenOk(s, c); }
    forall id | 0 <= id < |t.sessions| ensures SessionOk(t, id) {
      assert SessionOk(s, id);
      var c := s.sessions[id].connection;
      assert c.Some? && c.value < |s.connections| ==> OpenOk(s, c.value);
    }
    forall j | 0 <= j < |t.attempts| ensures AttemptOk(t, j) { assert AttemptOk(s, j); }
    forall id | Tracked(t, id) && !t.stopped ensures Busy(t, id) {
      assert Tracked(s, id) && Busy(s, id);
      if j :| Working(s, id, j) { assert Working(t, id, j); }
    }
  }

  lemma LostKeeps(s: State, c: nat)
    requires Inv(s) && c < |s.connections| && !s.connections[c].closed
    ensures Inv(LostStep(s, c))
  {
    var t := LostStep(s, c);
    var k := s.connections[c].session;
    assert OpenOk(s, c) && SessionOk(s, k);
    forall d | 0 <= d < |t.connections| ensures OpenOk(t, d) { assert OpenOk(s, d); }
    forall id | 0 <= id < |t.sessions| ensures SessionOk(t, id) {
      assert SessionOk(s, id);
      var d := s.sessions[id].connection;
      assert d.Some? && d.value < |s.connections| ==> OpenOk(s, d.value);
    }
    forall j | 0 <= j < |t.attempts| ensures AttemptOk(t, j) { assert AttemptOk(s, j); }
    forall id | Tracked(t, id) && !t.stopped ensures Busy(t, id) {
      assert Tracked(s, id) && Busy(s, id);
      if j :| Working(s, id, j) { assert Working(t, id, j); }
    }
  }

  lemma ShutdownKeeps(s: State)
    requires Inv(s)
    ensures Inv(ShutdownStep(s))
  {
    var t := ShutdownStep(s);
    forall c | 0 <= c < |t.connections| ensures t.connections[c].closed {
      assert OpenOk(s, c);
      if !s.connections[c].closed {
        var id := s.connections[c].session;
        assert s.sessions[id].account in s.tracked;
        assert c in Held(s);
      }
    }
    forall id | 0 <= id < |t.sessions| ensures SessionOk(t, id) { assert SessionOk(s, id); }
    forall j | 0 <= j < |t.attempts| ensures AttemptOk(t, j) { assert AttemptOk(s, j); }
  }

  lemma StepKeeps(s: State, e: Event)
    requires Inv(s)
    ensures Inv(Step(s, e))
  {
    if Enabled(s, e) {
      if AttemptEvent(e) { AttemptKeeps(s, e); }
      else {
        match e
        case Start(a) => StartKeeps(s, a);
        case Stop(a) => StopKeeps(s, a);
        case Lost(c) => LostKeeps(s, c);
        case TimerFired(id) => TimerKeeps(s, id);
        case Shutdown => ShutdownKeeps(s);
        case _ =>
      }
    }
  }

  lemma {:induction false} RunKeeps(s: State, es: seq<Event>)
    requires Inv(s)
    ensures Inv(Run(s, es))
    decreases |es|
  {
    if es != [] {
      StepKeeps(s, es[0]);
      RunKeeps(Step(s, es[0]), es[1..]);
    }
  }

  lemma BootOk(s: State)
    requires !s.stopped && s.tracked == map[] && s.sessions == [] && s.attempts == [] && s.connections == []
    ensures Inv(s)
  {
  }

  lemma RunFromBoot(es: seq<Event>)
    ensures Inv(Run(Boot(), es))
  {
    BootOk(Boot());
    RunKeeps(Boot(), es);
  }

  // ---- what every run keeps ----

  /** Connection `c` is open, and belongs to account `a`'s session. */
  predicate OpenFor(s: State, c: nat, a: string) {
    c < |s.connections| && !s.connections[c].closed && s.connections[c].session < |s.sessions|
    && s.sessions[s.connections[c].session].account == a
  }

  ghost predicate OneOpen(s: State, a: string) {
    && (forall c: nat, d: nat :: OpenFor(s, c, a) && OpenFor(s, d, a) ==> c == d)
    && (forall c: nat :: OpenFor(s, c, a) ==>
        !s.stopped && Tracked(s, s.connections[c].session) && !s.sessions[s.connections[c].session].timer)
  }

  lemma OneOpenNow(s: State, a: string)
    requires Inv(s)
    ensures OneOpen(s, a)
  {
    forall c: nat | OpenFor(s, c, a)
      ensures !s.stopped && s.sessions[s.connections[c].session].connection == Some(c)
      ensures Tracked(s, s.connections[c].session) && !s.sessions[s.connections[c].session].timer
    {
      assert OpenOk(s, c) && SessionOk(s, s.connections[c].session);
    }
  }

  /**
   * Through any reconnects, replacements and interleavings an account has at most one connection that was
   * not closed, of its tracked session, and then no timer is pending; after shutdown there is none.
   */
  lemma OneConnectionPerAccount(es: seq<Event>, a: string)
    ensures OneOpen(Run(Boot(), es), a)
  {
    RunFromBoot(es);
    OneOpenNow(Run(Boot(), es), a);
  }

  /** What a tracked session may be doing. */
  ghost predicate AccountedFor(s: State, a: string)
    requires a in s.tracked
  {
    var id := s.tracked[a];
    && id < |s.sessions|
    && ((exists i :: Working(s, id, i)) || s.sessions[id].timer || s.sessions[id].parked.Some?
        || (exists c :: OpenFor(s, c, a)))
    && (s.sessions[id].parked == Some(Deactivated) ==> a in s.deactivated)
  }

  lemma AccountedForNow(s: State, a: string)
    requires Inv(s) && !s.stopped && a in s.tracked
    ensures AccountedFor(s, a)
  {
    var id := s.tracked[a];
    assert Tracked(s, id) && Busy(s, id) && SessionOk(s, id);
    if s.sessions[id].connection.Some? {
      assert OpenFor(s, s.sessions[id].connection.value, a);
    }
  }

  /**
   * No tracked session is ever forgotten: until shutdown it has an attempt of its current generation in
   * flight, an open connection, a pending timer, or it is parked for one of three reasons: no token matches,
   * the subscription was refused for good, or the login was and the account is stamped deactivated.
   */
  lemma NeverForgotten(es: seq<Event>, a: string)
    requires !Run(Boot(), es).stopped && a in Run(Boot(), es).tracked
    ensures AccountedFor(Run(Boot(), es), a)
  {
    RunFromBoot(es);
    AccountedForNow(Run(Boot(), es), a);
  }

  // ---- what each answer leads to ----

  /** A failure that passes: login down, socket closed, slow subscribe, or a deactivation that was not stamped. */
  predicate Transient(e: Event) {
    || (e.Authorized? && e.reply == Failed) || (e.Opened? && !e.ok) || (e.Subscribed? && e.reply == Failed)
    || (e.Stamped? && !e.ok)
  }

  /** An answer after which only a change from outside helps. */
  function GivesUp(e: Event): Option<Park> {
    if e.Authorized? && e.reply == NoToken then Some(NoMatchingToken)
    else if e.Subscribed? && e.reply == Fatal then Some(SubscribeRejected)
    else if e.Stamped? && e.ok then Some(Deactivated)
    else None
  }

  /** The attempt is over and the account streams. */
  predicate Streams(e: Event) {
    e.Subscribed? && e.reply == Granted
  }

  /**
   * An answer to the attempt that owns its session: a passing failure schedules a reconnect, a final one parks the
   * session without, and only those and the accepted subscription end the attempt.
   */
  lemma AnswerExactly(s: State, e: Event)
    requires Inv(s) && AttemptEvent(e) && Enabled(s, e) && !Superseded(s, s.attempts[e.attempt])
    ensures var t, id := Step(s, e), s.attempts[e.attempt].session;
      && id < |s.sessions| == |t.sessions| && |t.attempts| == |s.attempts|
      && t.sessions[id].timer == (s.sessions[id].timer || Transient(e))
      && t.sessions[id].parked == (if GivesUp(e).Some? then GivesUp(e) else s.sessions[id].parked)
      && t.sessions[id].generation == s.sessions[id].generation
      && (t.attempts[e.attempt].stage.Ended? <==> Transient(e) || GivesUp(e).Some? || Streams(e))
  {
  }

  /**
   * And its connection: made when the login is granted, kept while the socket opens and is subscribed, and closed
   * and forgotten by any other answer.
   */
  lemma AnswerConnects(s: State, e: Event)
    requires Inv(s) && AttemptEvent(e) && Enabled(s, e) && !Superseded(s, s.attempts[e.attempt])
    ensures var i, t := e.attempt, Step(s, e);
      var id, own := s.attempts[i].session, s.attempts[i].connection;
      && id < |s.sessions| == |t.sessions| && i < |t.attempts|
      && if e.Authorized? && e.reply == Granted then
           && t.connections == s.connections + [Connection(id, s.attempts[i].generation, false)]
           && t.sessions[id].connection == Some(|s.connections|) == t.attempts[i].connection
           && t.attempts[i].stage == Opening
         else if (e.Opened? && e.ok) || Streams(e) then
           t.connections == s.connections && t.sessions[id].connection == s.sessions[id].connection
           && (e.Opened? ==> t.attempts[i].stage == Subscribing)
         else
           && t.sessions[id].connection == None && (own.Some? ==> ClosedIn(t, own.value))
           && (e.Authorized? && e.reply == Fatal ==> t.attempts[i].stage == Stamping)
  {
    assert AttemptOk(s, e.attempt);
  }

  predicate ClosedIn(s: State, c: nat) {
    c < |s.connections| && s.connections[c].closed
  }

  /** A superseded attempt ends at its next answer, closes what it opened and leaves the sessions alone. */
  lemma SupersededEnds(s: State, e: Event)
    requires Inv(s) && AttemptEvent(e) && Enabled(s, e) && Superseded(s, s.attempts[e.attempt]) && !e.Stamped?
    ensures var t, own := Step(s, e), s.attempts[e.attempt].connection;
      && t.sessions == s.sessions && t.tracked == s.tracked && |t.attempts| == |s.attempts|
      && t.attempts[e.attempt].stage.Ended?
      && (own.Some? ==> ClosedIn(t, own.value))
  {
    assert AttemptOk(s, e.attempt);
  }

  /** A lost connection of a tracked session leads to a reconnect. */
  lemma LostReconnects(s: State, c: nat)
    requires Inv(s) && Enabled(s, Lost(c))
    ensures var t, id := Step(s, Lost(c)), s.connections[c].session;
      && id < |t.sessions| && t.sessions[id].timer && t.sessions[id].connection == None
      && c < |t.connections| && t.connections[c].closed && t.tracked == s.tracked
  {
    assert OpenOk(s, c);
  }

  /** The timer starts an attempt of the next generation. */
  lemma TimerReconnects(s: State, id: nat)
    requires Inv(s) && Enabled(s, TimerFired(id))
    ensures var t := Step(s, TimerFired(id));
      && id < |t.sessions| && !t.sessions[id].timer && t.sessions[id].parked == None
      && t.sessions[id].generation == s.sessions[id].generation + 1
      && t.attempts == s.attempts + [Attempt(id, s.sessions[id].generation + 1, None, Authorizing)]
  {
    assert SessionOk(s, id);
  }

  /** Starting an account tracks a fresh session and begins its first attempt. */
  lemma StartConnects(s: State, a: string)
    requires Inv(s) && a !in s.tracked && !s.stopped
    ensures var t, id := Step(s, Start(a)), |s.sessions|;
      && t.tracked == s.tracked[a := id] && t.sessions == s.sessions + [Session(a, 1, false, None, None)]
      && t.attempts == s.attempts + [Attempt(id, 1, None, Authorizing)]
  {
  }

  /** Stopping it closes its connection, clears its timer and forgets it; its attempts are superseded. */
  lemma StopForgets(s: State, a: string)
    requires Inv(s) && a in s.tracked
    ensures var t, id := Step(s, Stop(a)), s.tracked[a];
      && t.tracked == s.tracked - {a} && id < |t.sessions|
      && !t.sessions[id].timer && t.sessions[id].connection == None
      && (forall c :: 0 <= c < |t.connections| && t.connections[c].session == id ==> t.connections[c].closed)
      && (forall i :: 0 <= i < |t.attempts| && t.attempts[i].session == id ==> Superseded(t, t.attempts[i]))
  {
    var t := Step(s, Stop(a));
    forall c | 0 <= c < |t.connections| && t.connections[c].session == s.tracked[a] ensures t.connections[c].closed {
      assert OpenOk(s, c);
    }
  }

  lemma ShutdownClears(s: State)
    requires Inv(s)
    ensures var t := Step(s, Shutdown);
      && t.stopped && t.tracked == map[] && |t.sessions| == |s.sessions| && Inv(t)
      && (forall c :: 0 <= c < |t.connections| ==> t.connections[c].closed)
      && (forall id :: 0 <= id < |t.sessions| ==> !t.sessions[id].timer)
  {
    var t := Step(s, Shutdown);
    StepKeeps(s, Shutdown);
    forall id | 0 <= id < |t.sessions| ensures !t.sessions[id].timer { assert SessionOk(t, id); }
  }

  lemma StoppedStep(s: State, e: Event)
    requires s.stopped
    ensures Step(s, e).stopped
  {
  }

  lemma {:induction false} StaysStopped(s: State, es: seq<Event>)
    requires Inv(s) && s.stopped
    ensures Inv(Run(s, es)) && Run(s, es).stopped
    decreases |es|
  {
    if es != [] {
      StepKeeps(s, es[0]);
      StoppedStep(s, es[0]);
      StaysStopped(Step(s, es[0]), es[1..]);
    }
  }

  /** From the shutdown on no connection is open and no timer runs, whatever is still under way. */
  lemma ShutdownIsFinal(s: State, es: seq<Event>)
    requires Inv(s)
    ensures var t := Run(Step(s, Shutdown), es);
      && t.stopped && (forall c :: 0 <= c < |t.connections| ==> t.connections[c].closed)
      && (forall id :: 0 <= id < |t.sessions| ==> !t.sessions[id].timer)
  {
    ShutdownClears(s);
    StaysStopped(Step(s, Shutdown), es);
    var t := Run(Step(s, Shutdown), es);
    forall id | 0 <= id < |t.sessions| ensures !t.sessions[id].timer { assert SessionOk(t, id); }
  }

  // ---- the manager ----

  class AccountManager {
    var stopped: bool
    var tracked: map<string, nat>
    var sessions: seq<Session>
    var attempts: seq<Attempt>
    var connections: seq<Connection>
    var deactivated: set<string>

    function View(): State
      reads this
    {
      State(stopped, tracked, sessions, attempts, connections, deactivated)
    }

    ghost predicate Valid()
      reads this
    {
      Inv(View())
    }

    constructor ()
      ensures View() == Boot()
      ensures Valid()
    {
      stopped, tracked, sessions, attempts, connections, deactivated := false, map[], [], [], [], {};
      new;
      BootOk(View());
    }

    /** connect, up to its first await. */
    method BeginConnect(id: nat)
      modifies this`sessions, this`attempts
      ensures View() == Connect(old(View()), id)
    {
      if !stopped && Tracked(View(), id) {
        var generation := sessions[id].generation + 1;
        sessions := sessions[id := sessions[id].(generation := generation, parked := None)];
        attempts := attempts + [Attempt(id, generation, None, Authorizing)];
      }
    }

    method StartAccount(a: string)
      requires Valid() && a !in tracked
      modifies this`tracked, this`sessions, this`attempts
      ensures View() == Step(old(View()), Start(a))
      ensures Valid()
    {
      StepKeeps(View(), Start(a));
      var id := |sessions|;
      tracked := tracked[a := id];
      sessions := sessions + [Session(a, 0, false, None, None)];
      BeginConnect(id);
    }

    method CloseConnection(c: Option<nat>)
      modifies this`connections
      ensures connections == Close(old(connections), c)
    {
      if c.Some? && c.value < |connections| {
        connections := connections[c.value := connections[c.value].(closed := true)];
      }
    }

    method ScheduleReconnect(id: nat)
      modifies this`sessions
      ensures View() == Schedule(old(View()), id)
    {
      if !stopped && Tracked(View(), id) { sessions := sessions[id := sessions[id].(timer := true)]; }
    }

    /** An await inside connect has settled. */
    method ContinueConnect(e: Event)
      requires Valid() && AttemptEvent(e) && Enabled(View(), e)
      modifies this`sessions, this`attempts, this`connections, this`deactivated
      ensures View() == Step(old(View()), e)
      ensures Valid()
    {
      StepKeeps(View(), e);
      assert AttemptOk(View(), e.attempt);
      var t := attempts[e.attempt];
      var outcome := OutcomeOf(Superseded(View(), t), e);
      if e.Stamped? && e.landed { deactivated := deactivated + {sessions[t.session].account}; }
      Settled(e.attempt, outcome);
    }

    method Settled(i: nat, o: Outcome)
      requires i < |attempts| && attempts[i].session < |sessions|
      modifies this`sessions, this`attempts, this`connections
      ensures View() == Commit(old(View()), i, o)
    {
      var t := attempts[i];
      match o {
        case Proceed(next) => attempts := attempts[i := t.(stage := next)];
        case Abandon =>
          attempts := attempts[i := t.(stage := Ended)];
          CloseConnection(t.connection);
        case Create =>
          var c := |connections|;
          attempts := attempts[i := t.(stage := Opening, connection := Some(c))];
          connections := connections + [Connection(t.session, t.generation, false)];
          sessions := sessions[t.session := sessions[t.session].(connection := Some(c))];
        case Stay(park) =>
          attempts := attempts[i := t.(stage := Ended)];
          CloseConnection(t.connection);
          sessions := sessions[t.session := sessions[t.session].(connection := None, parked := Some(park))];
        case Retry =>
          attempts := attempts[i := t.(stage := Ended)];
          CloseConnection(t.connection);
          sessions := sessions[t.session := sessions[t.session].(connection := None)];
          ScheduleReconnect(t.session);
        case Settle(ok) =>
          attempts := attempts[i := t.(stage := Ended)];
          if ok {
            sessions := sessions[t.session := sessions[t.session].(parked := Some(Deactivated))];
          } else {
            ScheduleReconnect(t.session);
          }
      }
    }

    method HandleLost(c: nat)
      requires Valid() && Enabled(View(), Lost(c))
      modifies this`sessions, this`connections
      ensures View() == Step(old(View()), Lost(c))
      ensures Valid()
    {
      StepKeeps(View(), Lost(c));
      var id := connections[c].session;
      if Tracked(View(), id) && sessions[id].generation == connections[c].generation {
        CloseConnection(sessions[id].connection);
        sessions := sessions[id := sessions[id].(connection := None)];
        ScheduleReconnect(id);
      }
    }

    method ReconnectTimer(id: nat)
      requires Valid() && id < |sessions| && sessions[id].timer
      modifies this`sessions, this`attempts
      ensures View() == Step(old(View()), TimerFired(id))
      ensures Valid()
    {
      StepKeeps(View(), TimerFired(id));
      sessions := sessions[id := sessions[id].(timer := false)];
      BeginConnect(id);
    }

    method StopAccount(a: string)
      requires Valid() && a in tracked
      modifies this`tracked, this`sessions, this`connections
      ensures View() == Step(old(View()), Stop(a))
      ensures Valid()
    {
      StepKeeps(View(), Stop(a));
      var id := tracked[a];
      CloseConnection(sessions[id].connection);
      var generation := sessions[id].generation + 1;
      sessions := sessions[id := sessions[id].(generation := generation, timer := false, connection := None)];
      tracked := tracked - {a};
    }

    method OnApplicationShutdown()
      requires Valid()
      modifies this`stopped, this`tracked, this`sessions, this`connections
      ensures View() == Step(old(View()), Shutdown)
      ensures Valid()
    {
      StepKeeps(View(), Shutdown);
      CloseHeld(Held(View()));
      ClearTimers();
      stopped, tracked := true, map[];
    }

    method CloseHeld(held: set<nat>)
      modifies this`connections
      ensures connections == ClosedAll(old(connections), held)
    {
      ghost var was := connections;
      for c := 0 to |connections|
        invariant |connections| == |was|
        invariant forall d :: 0 <= d < |was| ==>
            connections[d] == if d < c && d in held then was[d].(closed := true) else was[d]
      {
        if c in held { CloseConnection(Some(c)); }
      }
    }

    method ClearTimers()
      modifies this`sessions
      ensures sessions == seq(|old(sessions)|, i requires 0 <= i < |old(sessions)| =>
        if Tracked(old(View()), i) then old(sessions)[i].(timer := false) else old(sessions)[i])
    {
      var was := View();
      sessions := [];
      for i := 0 to |was.sessions|
        invariant sessions == seq(i, k requires 0 <= k < i <= |was.sessions| =>
          if Tracked(was, k) then was.sessions[k].(timer := false) else was.sessions[k])
      {
        sessions := sessions + [if Tracked(was, i) then was.sessions[i].(timer := false) else was.sessions[i]];
      }
    }
  }
}
