/**
 * The cTrader connection manager's sockets: one per environment, generation-guarded connect attempts,
 * the reconnect timer, and the loss signal of a connection. Session and connection objects are named by
 * their position in `objects` and `conns`, which never shrink. A closed connection emits no events.
 */
module CtraderSockets {
  import opened Common

  datatype Environment = Demo | Live

  /** An EnvSession object; it outlives its entry in the `sessions` map as long as an attempt captures it. */
  datatype Session = Session(env: Environment, generation: nat, connection: Option<nat>, timer: bool,
      reconnectAttempt: nat)

  /** A CtraderConnection object; `live` once its connect attempt completed. */
  datatype Conn = Conn(session: nat, generation: nat, closed: bool, live: bool)

  datatype State = State(
    stopped: bool,
    sessions: map<Environment, nat>,
    objects: seq<Session>,
    conns: seq<Conn>,
    inFlight: set<nat>)

  /** How the call a connect attempt awaits settles. */
  datatype Result = More | Done | Fails

  datatype Event =
    | Started(env: Environment)             // start has loaded accounts; it does not look whether it was stopped
    | Appear(env: Environment)              // reconcile finds accounts for a new environment
    | Emptied(env: Environment)             // reconcile: no accounts remain
    | Changed(env: Environment)             // reconcile: the signature changed
    | Settle(conn: nat, result: Result)
    | Lost(conn: nat)                       // server disconnect, failed probe, or token invalidated
    | TimerFires(env: Environment)
    | Shutdown

  const Initial: State := State(false, map[], [], [], {})

  predicate Wellformed(s: State) {
    && (forall e :: e in s.sessions ==> s.sessions[e] < |s.objects|)
    && (forall c :: c in s.inFlight ==> c < |s.conns|)
    && (forall c :: 0 <= c < |s.conns| ==> s.conns[c].session < |s.objects|)
    && (forall x :: 0 <= x < |s.objects| && s.objects[x].connection.Some? ==> s.objects[x].connection.value < |s.conns|)
  }

  /** The environment a connection's handlers captured. */
  function EnvOf(s: State, c: nat): Environment
    requires Wellformed(s) && c < |s.conns|
  {
    s.objects[s.conns[c].session].env
  }

  function CloseConn(s: State, c: nat): State
    requires c < |s.conns|
  {
    s.(conns := s.conns[c := s.conns[c].(closed := true)])
  }

  /** `session.connection?.close(); session.connection = undefined`. */
  function CloseCurrent(s: State, x: nat): State
    requires Wellformed(s) && x < |s.objects|
  {
    var o := s.objects[x];
    if o.connection.None? then s
    else CloseConn(s.(objects := s.objects[x := o.(connection := None)]), o.connection.value)
  }

  function ScheduleReconnect(s: State, env: Environment): State
    requires Wellformed(s)
  {
    if s.stopped || env !in s.sessions || s.objects[s.sessions[env]].timer then s
    else
      var x := s.sessions[env];
      s.(objects := s.objects[x := s.objects[x].(timer := true, reconnectAttempt := s.objects[x].reconnectAttempt + 1)])
  }

  function HandleLost(s: State, env: Environment, generation: nat): State
    requires Wellformed(s)
  {
    if env !in s.sessions || s.objects[s.sessions[env]].generation != generation then s
    else ScheduleReconnect(CloseCurrent(s, s.sessions[env]), env)
  }

  /** connectEnv up to its first await. */
  function Connect(s: State, env: Environment): State
    requires Wellformed(s)
  {
    if s.stopped || env !in s.sessions then s
    else
      var x, c := s.sessions[env], |s.conns|;
      var g := s.objects[x].generation + 1;
      s.(objects := s.objects[x := s.objects[x].(generation := g, connection := Some(c))],
         conns := s.conns + [Conn(x, g, false, false)],
         inFlight := s.inFlight + {c})
  }

  predicate Superseded(s: State, c: nat)
    requires Wellformed(s) && c < |s.conns|
  {
    s.stopped || s.objects[s.conns[c].session].generation != s.conns[c].generation
  }

  /** connectEnv from one await to the next. */
  function Resume(s: State, c: nat, result: Result): State
    requires Wellformed(s) && c < |s.conns|
  {
    var x := s.conns[c].session;
    if Superseded(s, c) then CloseConn(s, c).(inFlight := s.inFlight - {c})
    else match result
      case More => s
      case Done =>
        s.(conns := s.conns[c := s.conns[c].(live := true)],
           objects := s.objects[x := s.objects[x].(reconnectAttempt := 0)],
           inFlight := s.inFlight - {c})
      case Fails =>
        var s1 := CloseConn(s, c);
        ScheduleReconnect(
          s1.(objects := s1.objects[x := s1.objects[x].(connection := None)], inFlight := s.inFlight - {c}),
          EnvOf(s, c))
  }

  function NewSession(s: State, env: Environment): State
    requires Wellformed(s)
  {
    if env in s.sessions then s
    else
      Connect(s.(objects := s.objects + [Session(env, 0, None, false, 0)],
          sessions := s.sessions[env := |s.objects|]), env)
  }

  function DropSession(s: State, env: Environment): State
    requires Wellformed(s)
  {
    if env !in s.sessions then s
    else
      var x := s.sessions[env];
      var o := s.objects[x];
      var s1 := s.(objects := s.objects[x := o.(timer := false, generation := o.generation + 1)]);
      CloseCurrent(s1, x).(sessions := s.sessions - {env})
  }

  function Reconfigure(s: State, env: Environment): State
    requires Wellformed(s)
  {
    if env !in s.sessions then s
    else
      var x := s.sessions[env];
      var g := s.objects[x].generation + 1;
      HandleLost(s.(objects := s.objects[x := s.objects[x].(generation := g)]), env, g)
  }

  function FireTimer(s: State, env: Environment): State
    requires Wellformed(s)
  {
    if env !in s.sessions || !s.objects[s.sessions[env]].timer then s
    else
      var x := s.sessions[env];
      Connect(s.(objects := s.objects[x := s.objects[x].(timer := false)]), env)
  }

  /** One environment's share of onModuleDestroy. */
  function Release(s: State, env: Environment): State
    requires Wellformed(s)
  {
    if env !in s.sessions then s
    else
      var x := s.sessions[env];
      CloseCurrent(s.(objects := s.objects[x := s.objects[x].(timer := false)]), x).(sessions := s.sessions - {env})
  }

  function Stop(s: State): State
    requires Wellformed(s)
  {
    var s1 := s.(stopped := true);
    assert Wellformed(s1);
    Release(Release(s1, Demo), Live)
  }

  function Step(s: State, e: Event): State
    requires Wellformed(s)
  {
    match e
    case Started(env) => NewSession(s, env)
    case Appear(env) => if s.stopped then s else NewSession(s, env)
    case Emptied(env) => if s.stopped then s else DropSession(s, env)
    case Changed(env) => if s.stopped then s else Reconfigure(s, env)
    case Settle(c, result) => if c in s.inFlight then Resume(s, c, result) else s
    case Lost(c) =>
      if c < |s.conns| && !s.conns[c].closed then HandleLost(s, EnvOf(s, c), s.conns[c].generation) else s
    case TimerFires(env) => FireTimer(s, env)
    case Shutdown => Stop(s)
  }

  // ---- invariants ----

  predicate Tracked(s: State, x: nat)
    requires x < |s.objects|
  {
    s.objects[x].env in s.sessions && s.sessions[s.objects[x].env] == x
  }

  /**
   * A tracked session has either an open connection of its generation, or a pending timer: never both, and neither
   * exactly if the manager has stopped.
   */
  predicate SessionOk(s: State, e: Environment)
    requires Wellformed(s) && e in s.sessions
  {
    var x := s.sessions[e];
    var o := s.objects[x];
    && o.env == e
    && match o.connection
       case None => o.timer == !s.stopped
       case Some(c) =>
         && !o.timer && !s.stopped
         && s.conns[c] == Conn(x, o.generation, false, s.conns[c].live)
         && (c in s.inFlight || s.conns[c].live)
  }

  /**
   * An open connection is its session's current one; an attempt of the session's generation is of a tracked session.
   */
  predicate ConnOk(s: State, c: nat)
    requires Wellformed(s) && c < |s.conns|
  {
    var k := s.conns[c];
    var o := s.objects[k.session];
    && (!k.closed ==> Tracked(s, k.session) && o.connection == Some(c))
    && k.generation <= o.generation
    && (k.generation == o.generation && !s.stopped ==> Tracked(s, k.session))
  }

  ghost predicate Inv(s: State) {
    && Wellformed(s)
    && (forall e :: e in s.sessions ==> SessionOk(s, e))
    && (forall c :: 0 <= c < |s.conns| ==> ConnOk(s, c))
    && (forall c, d :: 0 <= c < d < |s.conns| && s.conns[c].session == s.conns[d].session ==>
          s.conns[c].generation != s.conns[d].generation)
  }

  /** Only session object `x`, its connections and its map entry may differ. */
  ghost predicate Local(s: State, t: State, x: nat) {
    && Wellformed(s) && Wellformed(t) && t.stopped == s.stopped
    && |s.objects| <= |t.objects| <= |s.objects| + 1 && |s.conns| <= |t.conns| && x < |t.objects|
    && (|t.objects| > |s.objects| ==> x == |s.objects|)
    && (x < |s.objects| ==> t.objects[x].env == s.objects[x].env && Tracked(s, x))
    && (forall y :: 0 <= y < |s.objects| && y != x ==> t.objects[y] == s.objects[y])
    && (forall f :: f != t.objects[x].env ==> (f in t.sessions <==> f in s.sessions))
    && (forall f :: f != t.objects[x].env && f in s.sessions ==> t.sessions[f] == s.sessions[f])
    && (t.objects[x].env in t.sessions ==> t.sessions[t.objects[x].env] == x)
    && (t.objects[x].env in s.sessions ==> x < |s.objects|)
    && (forall c :: 0 <= c < |s.conns| ==> t.conns[c].session == s.conns[c].session)
    && (forall c :: 0 <= c < |s.conns| && s.conns[c].session != x ==>
          t.conns[c] == s.conns[c] && (c in t.inFlight <==> c in s.inFlight))
    && (forall c :: |s.conns| <= c < |t.conns| ==> t.conns[c].session == x)
  }

  /** The conditions on session object `x` alone. */
  ghost predicate LocalOk(t: State, x: nat)
    requires Wellformed(t) && x < |t.objects|
  {
    && (t.objects[x].env in t.sessions ==> SessionOk(t, t.objects[x].env))
    && (forall c :: 0 <= c < |t.conns| && t.conns[c].session == x ==> ConnOk(t, c))
    && (forall c, d :: 0 <= c < d < |t.conns| && t.conns[c].session == x && t.conns[d].session == x ==>
          t.conns[c].generation != t.conns[d].generation)
  }

  lemma LocalKeeps(s: State, t: State, x: nat)
    requires Inv(s) && Local(s, t, x) && LocalOk(t, x) && !t.stopped
    ensures Inv(t)
  {
    forall f | f in t.sessions && f != t.objects[x].env ensures SessionOk(t, f) {
      assert SessionOk(s, f);
      var o := s.objects[s.sessions[f]];
      if o.connection.Some? { assert s.conns[o.connection.value].session != x; }
    }
    forall c | 0 <= c < |t.conns| && t.conns[c].session != x ensures ConnOk(t, c) {
      assert ConnOk(s, c);
      assert t.conns[c] == s.conns[c];
    }
    forall c, d | 0 <= c < d < |t.conns| && t.conns[c].session == t.conns[d].session
      ensures t.conns[c].generation != t.conns[d].generation {
      if t.conns[c].session != x { assert t.conns[c] == s.conns[c] && t.conns[d] == s.conns[d]; }
    }
  }

  /** Every connection of a tracked session but the current one is closed. */
  lemma OthersClosed(s: State, x: nat, c: nat)
    requires Inv(s) && x < |s.objects| && c < |s.conns| && s.conns[c].session == x && s.objects[x].connection != Some(c)
    ensures s.conns[c].closed && s.conns[c].generation <= s.objects[x].generation
  {
    assert ConnOk(s, c);
  }

  lemma AppearKeeps(s: State, env: Environment)
    requires Inv(s)
    ensures Inv(NewSession(s, env))
  {
    var t := NewSession(s, env);
    if env !in s.sessions {
      if s.stopped {
        StartedLate(s, env);
      } else {
        forall c | 0 <= c < |t.conns| && t.conns[c].session == |s.objects| ensures c == |s.conns| {}
        LocalKeeps(s, t, |s.objects|);
      }
    }
  }

  /** A start that finishes loading after the shutdown leaves sessions that nothing serves. */
  lemma StartedLate(s: State, env: Environment)
    requires Inv(s) && s.stopped && env !in s.sessions
    ensures Inv(NewSession(s, env)) && NewSession(s, env).conns == s.conns
  {
    var t := NewSession(s, env);
    forall f | f in t.sessions ensures SessionOk(t, f) { if f != env { assert SessionOk(s, f); } }
    forall c | 0 <= c < |s.conns| ensures ConnOk(t, c) { assert ConnOk(s, c); }
  }

  /** The session's connection is closed and forgotten, and its other fields replaced. */
  function Hangup(s: State, x: nat, generation: nat, timer: bool, attempt: nat): State
    requires Wellformed(s) && x < |s.objects|
  {
    var o := s.objects[x];
    var s1 := s.(objects := s.objects[x := Session(o.env, generation, None, timer, attempt)]);
    if o.connection.Some? then CloseConn(s1, o.connection.value) else s1
  }

  lemma HangupConns(s: State, x: nat, generation: nat, timer: bool, attempt: nat, c: nat)
    requires Inv(s) && x < |s.objects| && s.objects[x].generation < generation && c < |s.conns|
        && s.conns[c].session == x
    ensures var t := Hangup(s, x, generation, timer, attempt);
      t.conns[c].session == x && t.conns[c].closed && t.conns[c].generation == s.conns[c].generation < generation
  {
    assert ConnOk(s, c);
  }

  /** A hung-up session keeps the invariant if it waits on a timer or has left the map. */
  lemma HangupKeeps(s: State, env: Environment, generation: nat, timer: bool, attempt: nat)
    requires Inv(s) && !s.stopped && env in s.sessions && s.objects[s.sessions[env]].generation < generation
    ensures var t := Hangup(s, s.sessions[env], generation, timer, attempt);
      if timer then Inv(t) else Inv(t.(sessions := t.sessions - {env}))
  {
    var x := s.sessions[env];
    assert SessionOk(s, env);
    var h := Hangup(s, x, generation, timer, attempt);
    var t := if timer then h else h.(sessions := h.sessions - {env});
    forall c | 0 <= c < |t.conns| && t.conns[c].session == x ensures ConnOk(t, c) {
      HangupConns(s, x, generation, timer, attempt, c);
    }
    LocalKeeps(s, t, x);
  }

  lemma EmptiedKeeps(s: State, env: Environment)
    requires Inv(s) && !s.stopped
    ensures Inv(DropSession(s, env))
  {
    if env in s.sessions {
      var o := s.objects[s.sessions[env]];
      var h := Hangup(s, s.sessions[env], o.generation + 1, false, o.reconnectAttempt);
      assert DropSession(s, env) == h.(sessions := h.sessions - {env});
      HangupKeeps(s, env, o.generation + 1, false, o.reconnectAttempt);
    }
  }

  lemma ChangedKeeps(s: State, env: Environment)
    requires Inv(s) && !s.stopped
    ensures Inv(Reconfigure(s, env))
  {
    if env in s.sessions {
      assert SessionOk(s, env);
      var o := s.objects[s.sessions[env]];
      var attempt := if o.timer then o.reconnectAttempt else o.reconnectAttempt + 1;
      assert Reconfigure(s, env) == Hangup(s, s.sessions[env], o.generation + 1, true, attempt);
      HangupKeeps(s, env, o.generation + 1, true, attempt);
    }
  }

  lemma LostKeeps(s: State, c: nat)
    requires Inv(s) && c < |s.conns| && !s.conns[c].closed
    ensures Inv(HandleLost(s, EnvOf(s, c), s.conns[c].generation))
  {
    var t := HandleLost(s, EnvOf(s, c), s.conns[c].generation);
    assert ConnOk(s, c);
    var x := s.conns[c].session;
    assert SessionOk(s, EnvOf(s, c));
    forall d | 0 <= d < |t.conns| && t.conns[d].session == x ensures ConnOk(t, d) { assert ConnOk(s, d); }
    LocalKeeps(s, t, x);
  }

  /** A session waiting on its timer gets a new connection of the next generation. */
  function Dial(s: State, x: nat): State
    requires x < |s.objects|
  {
    var o, c := s.objects[x], |s.conns|;
    s.(objects := s.objects[x := Session(o.env, o.generation + 1, Some(c), false, o.reconnectAttempt)],
       conns := s.conns + [Conn(x, o.generation + 1, false, false)], inFlight := s.inFlight + {c})
  }

  lemma DialKeeps(s: State, env: Environment)
    requires Inv(s) && env in s.sessions && s.objects[s.sessions[env]].timer
    ensures Inv(Dial(s, s.sessions[env]))
  {
    var x := s.sessions[env];
    var u := Dial(s, x);
    assert SessionOk(s, env);
    forall d | 0 <= d < |s.conns| && s.conns[d].session == x
      ensures ConnOk(u, d) && u.conns[d].generation <= s.objects[x].generation {
      OthersClosed(s, x, d);
    }
    assert ConnOk(u, |s.conns|);
    LocalKeeps(s, u, x);
  }

  lemma TimerKeeps(s: State, env: Environment)
    requires Inv(s)
    ensures Inv(FireTimer(s, env))
  {
    if env in s.sessions && s.objects[s.sessions[env]].timer && !s.stopped {
      assert FireTimer(s, env) == Dial(s, s.sessions[env]);
      DialKeeps(s, env);
    }
  }

  lemma SettleKeeps(s: State, c: nat, result: Result)
    requires Inv(s) && c in s.inFlight
    ensures Inv(Resume(s, c, result))
  {
    if Superseded(s, c) {
      SupersededKeeps(s, c);
    } else if result == Fails {
      FailedKeeps(s, c);
    } else if result == Done {
      DoneKeeps(s, c);
    }
  }

  lemma DoneKeeps(s: State, c: nat)
    requires Inv(s) && c in s.inFlight && !Superseded(s, c)
    ensures Inv(Resume(s, c, Done))
  {
    var t := Resume(s, c, Done);
    var x := s.conns[c].session;
    assert ConnOk(s, c);
    assert SessionOk(s, EnvOf(s, c));
    forall d | 0 <= d < |t.conns| && t.conns[d].session == x ensures ConnOk(t, d) { assert ConnOk(s, d); }
    LocalKeeps(s, t, x);
  }

  lemma FailedKeeps(s: State, c: nat)
    requires Inv(s) && c in s.inFlight && !Superseded(s, c)
    ensures Inv(Resume(s, c, Fails))
  {
    var t := Resume(s, c, Fails);
    var x := s.conns[c].session;
    assert ConnOk(s, c);
    assert SessionOk(s, EnvOf(s, c));
    forall d | 0 <= d < |t.conns| && t.conns[d].session == x ensures ConnOk(t, d) { assert ConnOk(s, d); }
    LocalKeeps(s, t, x);
  }

  lemma SupersededKeeps(s: State, c: nat)
    requires Inv(s) && c in s.inFlight && Superseded(s, c)
    ensures Inv(CloseConn(s, c).(inFlight := s.inFlight - {c}))
  {
    var t := CloseConn(s, c).(inFlight := s.inFlight - {c});
    forall e | e in t.sessions ensures SessionOk(t, e) { assert SessionOk(s, e); }
    forall d | 0 <= d < |t.conns| ensures ConnOk(t, d) {
      assert ConnOk(s, d);
      assert t.conns[d] == s.conns[d].(closed := t.conns[d].closed);
    }
  }

  /** What releasing one environment leaves: only the connection that was current there gets closed. */
  lemma ReleaseFacts(s: State, env: Environment)
    requires Wellformed(s)
    ensures var t := Release(s, env);
      && Wellformed(t) && t.stopped == s.stopped && t.sessions == s.sessions - {env}
      && |t.conns| == |s.conns| && |t.objects| == |s.objects|
      && (forall c :: 0 <= c < |s.conns| ==> t.conns[c] == s.conns[c].(closed := t.conns[c].closed))
      && (forall c :: 0 <= c < |s.conns| && s.conns[c].closed ==> t.conns[c].closed)
      && (env in s.sessions && s.objects[s.sessions[env]].connection.Some? ==>
            t.conns[s.objects[s.sessions[env]].connection.value].closed)
      && (forall x :: 0 <= x < |s.objects| && !(env in s.sessions && x == s.sessions[env]) ==>
          t.objects[x] == s.objects[x])
      && (forall x :: 0 <= x < |s.objects| ==> t.objects[x].generation == s.objects[x].generation)
      && (env in s.sessions ==> !t.objects[s.sessions[env]].timer) && t.inFlight == s.inFlight
  {
  }

  lemma StopCloses(s: State)
    requires Inv(s)
    ensures |Stop(s).conns| == |s.conns| && forall c :: 0 <= c < |s.conns| ==> Stop(s).conns[c].closed
  {
    var s1 := s.(stopped := true);
    ReleaseFacts(s1, Demo);
    ReleaseFacts(Release(s1, Demo), Live);
    forall c | 0 <= c < |s.conns| ensures Stop(s).conns[c].closed { StopClosesOne(s, c); }
  }

  lemma StopClosesOne(s: State, c: nat)
    requires Inv(s) && c < |s.conns|
    ensures c < |Stop(s).conns| && Stop(s).conns[c].closed
  {
    var s1 := s.(stopped := true);
    ReleaseFacts(s1, Demo);
    ReleaseFacts(Release(s1, Demo), Live);
    assert ConnOk(s, c);
    if !s.conns[c].closed { OpenIsCurrent(s, c); }
  }

  lemma OpenIsCurrent(s: State, c: nat)
    requires Inv(s) && c < |s.conns| && !s.conns[c].closed
    ensures var env := EnvOf(s, c); env in s.sessions && s.objects[s.sessions[env]].connection == Some(c)
  {
    assert ConnOk(s, c);
  }

  lemma StopKeeps(s: State)
    requires Inv(s)
    ensures Inv(Stop(s))
  {
    var s1 := s.(stopped := true);
    ReleaseFacts(s1, Demo);
    ReleaseFacts(Release(s1, Demo), Live);
    var t := Stop(s);
    StopCloses(s);
    forall c | 0 <= c < |s.conns| ensures ConnOk(t, c) { assert ConnOk(s, c); }
  }

  lemma StepKeeps(s: State, e: Event)
    requires Inv(s)
    ensures Inv(Step(s, e))
  {
    match e {
      case Started(env) => AppearKeeps(s, env);
      case Appear(env) => AppearKeeps(s, env);
      case Emptied(env) => if !s.stopped { EmptiedKeeps(s, env); }
      case Changed(env) => if !s.stopped { ChangedKeeps(s, env); }
      case Settle(c, result) => if c in s.inFlight { SettleKeeps(s, c, result); }
      case Lost(c) => if c < |s.conns| && !s.conns[c].closed { LostKeeps(s, c); }
      case TimerFires(env) => TimerKeeps(s, env);
      case Shutdown => StopKeeps(s);
    }
  }

  /** The states of a run. */
  ghost predicate Reaches(s: State, es: seq<Event>, t: State)
    decreases |es|
  {
    Wellformed(s) && if es == [] then s == t else Reaches(Step(s, es[0]), es[1..], t)
  }

  lemma {:induction false} RunKeeps(s: State, es: seq<Event>, t: State)
    requires Inv(s) && Reaches(s, es, t)
    ensures Inv(t)
    decreases |es|
  {
    if es != [] {
      StepKeeps(s, es[0]);
      RunKeeps(Step(s, es[0]), es[1..], t);
    }
  }

  /** Each environment has at most one connection on which close() was not called. */
  lemma OneOpenSocket(es: seq<Event>, t: State, c: nat, d: nat)
    requires Reaches(Initial, es, t) && c < |t.conns| && d < |t.conns|
    requires Wellformed(t) && !t.conns[c].closed && !t.conns[d].closed && EnvOf(t, c) == EnvOf(t, d)
    ensures c == d && !t.stopped && EnvOf(t, c) in t.sessions
  {
    RunKeeps(Initial, es, t);
    assert ConnOk(t, c) && ConnOk(t, d);
  }

  /**
   * Never stuck: while the manager runs, a tracked session has a pending reconnect timer and no connection, or an
   * open connection of its own generation whose connect attempt is in flight or completed. Stopped, it has neither.
   */
  lemma NeverStuck(es: seq<Event>, t: State, e: Environment)
    requires Reaches(Initial, es, t) && e in t.sessions
    ensures Wellformed(t)
    ensures var o := t.objects[t.sessions[e]];
      if t.stopped then !o.timer && o.connection == None
      else if o.timer then o.connection == None
      else o.connection.Some? && var c := o.connection.value;
        !t.conns[c].closed && t.conns[c].generation == o.generation && (c in t.inFlight || t.conns[c].live)
  {
    RunKeeps(Initial, es, t);
    assert SessionOk(t, e);
  }

  // ---- what each event leads to ----

  /** The session hangs on its timer: it has no connection, and the one it had is closed. */
  predicate Reconnects(s: State, x: nat, c: nat) {
    && x < |s.objects| && s.objects[x].timer && s.objects[x].connection == None
    && c < |s.conns| && s.conns[c].closed
  }

  /** A session waits for a new connection of the next generation, and nothing else has changed. */
  predicate Dials(s: State, t: State, x: nat) {
    && x < |t.objects| && t.conns == s.conns + [Conn(x, t.objects[x].generation, false, false)]
    && t.objects[x].connection == Some(|s.conns|) && !t.objects[x].timer
    && t.inFlight == s.inFlight + {|s.conns|}
  }

  /**
   * How a connect attempt ends that nobody has superseded: accepted, its connection is live and the backoff reset;
   * failed, it is closed and the session reconnects. Either way it is no longer in flight.
   */
  lemma ConnectEnds(s: State, c: nat)
    requires Inv(s) && c in s.inFlight && !Superseded(s, c)
    ensures var x, t := s.conns[c].session, Step(s, Settle(c, Done));
      && t.inFlight == s.inFlight - {c} && t.conns == s.conns[c := s.conns[c].(live := true)]
      && t.objects == s.objects[x := s.objects[x].(reconnectAttempt := 0)] && t.sessions == s.sessions
    ensures var x, t := s.conns[c].session, Step(s, Settle(c, Fails));
      && t.inFlight == s.inFlight - {c} && Reconnects(t, x, c) && t.sessions == s.sessions
      && (s.objects[x].timer || t.objects[x].reconnectAttempt == s.objects[x].reconnectAttempt + 1)
  {
    assert ConnOk(s, c);
    assert SessionOk(s, EnvOf(s, c));
  }

  /** One that was superseded closes its connection at its next check and touches nothing else. */
  lemma SupersededEnds(s: State, c: nat, result: Result)
    requires Inv(s) && c in s.inFlight && Superseded(s, c)
    ensures Step(s, Settle(c, result)) ==
              s.(conns := s.conns[c := s.conns[c].(closed := true)], inFlight := s.inFlight - {c})
  {
  }

  /** A lost connection of a tracked session is closed and the session reconnects. */
  lemma LostReconnects(s: State, c: nat)
    requires Inv(s) && c < |s.conns| && !s.conns[c].closed
    ensures var x, t := s.conns[c].session, Step(s, Lost(c));
      && t.sessions == s.sessions
      && (s.conns[c].generation == s.objects[x].generation ==> Reconnects(t, x, c))
      && (s.conns[c].generation != s.objects[x].generation ==> t == s)
  {
    assert ConnOk(s, c);
    assert SessionOk(s, EnvOf(s, c));
  }

  /** The timer dials again. */
  lemma TimerDials(s: State, env: Environment)
    requires Inv(s) && env in s.sessions && s.objects[s.sessions[env]].timer
    ensures var t, x := Step(s, TimerFires(env)), s.sessions[env];
      Dials(s, t, x) && t.objects[x].generation == s.objects[x].generation + 1 && t.sessions == s.sessions
  {
    assert SessionOk(s, env);
  }

  /** A new environment dials at once; after the shutdown reconcile does nothing, and start leaves a bare session. */
  lemma AppearDials(s: State, env: Environment)
    requires Inv(s) && env !in s.sessions
    ensures var t, x := Step(s, Appear(env)), |s.objects|;
      if s.stopped then t == s
      else Dials(s, t, x) && t.sessions == s.sessions[env := x] && t.objects[x].env == env
    ensures var t, x := Step(s, Started(env)), |s.objects|;
      && t.sessions == s.sessions[env := x] && x < |t.objects| && t.objects[x].env == env
      && (if s.stopped then t.conns == s.conns && !t.objects[x].timer else Dials(s, t, x))
  {
  }

  /** An environment without accounts is forgotten, with its timer and its connection. */
  lemma EmptiedForgets(s: State, env: Environment)
    requires Inv(s) && env in s.sessions && !s.stopped
    ensures var t, x := Step(s, Emptied(env)), s.sessions[env];
      && t.sessions == s.sessions - {env} && x < |t.objects| && !t.objects[x].timer
      && (forall c :: 0 <= c < |t.conns| && t.conns[c].session == x ==> t.conns[c].closed)
      && (forall c :: c in t.inFlight && t.conns[c].session == x ==> Superseded(t, c))
  {
    var t, x := Step(s, Emptied(env)), s.sessions[env];
    EmptiedKeeps(s, env);
    forall c | 0 <= c < |t.conns| && t.conns[c].session == x ensures t.conns[c].closed { assert ConnOk(t, c); }
    forall c | c in t.inFlight && t.conns[c].session == x ensures Superseded(t, c) { assert ConnOk(s, c); }
  }

  /** A changed account set supersedes the attempt, closes the connection and reconnects with the new set. */
  lemma ChangedReconnects(s: State, env: Environment)
    requires Inv(s) && env in s.sessions && !s.stopped
    ensures var t, x := Step(s, Changed(env)), s.sessions[env];
      && t.sessions == s.sessions && x < |t.objects| && t.objects[x].timer && t.objects[x].connection == None
      && t.objects[x].generation == s.objects[x].generation + 1
      && (forall c :: 0 <= c < |t.conns| && t.conns[c].session == x ==> t.conns[c].closed)
  {
    var t, x := Step(s, Changed(env)), s.sessions[env];
    assert SessionOk(s, env);
    ChangedKeeps(s, env);
    forall c | 0 <= c < |t.conns| && t.conns[c].session == x ensures t.conns[c].closed { assert ConnOk(t, c); }
  }

  /** The shutdown closes every connection, clears every timer and forgets every session. */
  lemma ShutdownClears(s: State)
    requires Inv(s)
    ensures var t := Step(s, Shutdown);
      && t.stopped && t.sessions == map[] && t.inFlight == s.inFlight
      && |t.conns| == |s.conns| && |t.objects| == |s.objects|
      && (forall c :: 0 <= c < |t.conns| ==> t.conns[c].closed)
      && (forall e :: e in s.sessions ==> s.sessions[e] < |t.objects| && !t.objects[s.sessions[e]].timer)
  {
    var s1 := s.(stopped := true);
    StopCloses(s);
    ReleaseFacts(s1, Demo);
    ReleaseFacts(Release(s1, Demo), Live);
    forall e | e in s.sessions ensures !Step(s, Shutdown).objects[s.sessions[e]].timer { assert SessionOk(s, e); }
  }

  lemma StoppedStep(s: State, e: Event)
    requires Inv(s) && s.stopped
    ensures Step(s, e).stopped
  {
    if e.Shutdown? {
      ReleaseFacts(s, Demo);
      ReleaseFacts(Release(s, Demo), Live);
    } else if e.Settle? && e.conn in s.inFlight {
      assert Superseded(s, e.conn);
    }
  }

  lemma {:induction false} StaysStopped(s: State, es: seq<Event>, t: State)
    requires Inv(s) && s.stopped && Reaches(s, es, t)
    ensures Inv(t) && t.stopped
    decreases |es|
  {
    if es != [] {
      StepKeeps(s, es[0]);
      StoppedStep(s, es[0]);
      StaysStopped(Step(s, es[0]), es[1..], t);
    }
  }

  lemma StoppedIsClosed(s: State, c: nat)
    requires Inv(s) && s.stopped && c < |s.conns|
    ensures s.conns[c].closed
  {
    assert ConnOk(s, c);
  }

  /** From the shutdown on every connection is closed, and no session has one or waits for one. */
  lemma ShutdownIsFinal(s: State, es: seq<Event>, t: State)
    requires Inv(s) && Reaches(Step(s, Shutdown), es, t)
    ensures Wellformed(t) && t.stopped && (forall c :: 0 <= c < |t.conns| ==> t.conns[c].closed)
    ensures forall e :: e in t.sessions ==>
              t.objects[t.sessions[e]].connection == None && !t.objects[t.sessions[e]].timer
  {
    ShutdownClears(s);
    StepKeeps(s, Shutdown);
    StaysStopped(Step(s, Shutdown), es, t);
    forall c | 0 <= c < |t.conns| ensures t.conns[c].closed { StoppedIsClosed(t, c); }
    forall e | e in t.sessions ensures t.objects[t.sessions[e]].connection == None && !t.objects[t.sessions[e]].timer {
      assert SessionOk(t, e);
    }
  }

  // ---- the manager, field by field ----

  class CtraderConnectionManager {
    var stopped: bool
    var sessions: map<Environment, nat>
    var objects: seq<Session>
    var conns: seq<Conn>
    var inFlight: set<nat>

    ghost function View(): State
      reads this
    {
      State(stopped, sessions, objects, conns, inFlight)
    }

    ghost predicate Valid()
      reads this
    {
      Inv(View())
    }

    constructor ()
      ensures Valid() && View() == Initial
    {
      stopped, sessions, objects, conns, inFlight := false, map[], [], [], {};
    }

    method CloseConnection(c: nat)
      requires Wellformed(View()) && c < |conns|
      modifies this`conns
      ensures View() == CloseConn(old(View()), c)
    {
      conns := conns[c := conns[c].(closed := true)];
    }

    method CloseSessionSocket(x: nat)
      requires Wellformed(View()) && x < |objects|
      modifies this
      ensures View() == CloseCurrent(old(View()), x)
    {
      if objects[x].connection.Some? {
        var c := objects[x].connection.value;
        objects := objects[x := objects[x].(connection := None)];
        CloseConnection(c);
      }
    }

    method Schedule(env: Environment)
      requires Wellformed(View())
      modifies this
      ensures View() == ScheduleReconnect(old(View()), env)
    {
      if stopped || env !in sessions || objects[sessions[env]].timer { return; }
      var x := sessions[env];
      var session := objects[x];
      objects := objects[x := session.(timer := true, reconnectAttempt := session.reconnectAttempt + 1)];
    }

    method OnLost(env: Environment, generation: nat)
      requires Wellformed(View())
      modifies this
      ensures View() == HandleLost(old(View()), env, generation)
    {
      if env !in sessions || objects[sessions[env]].generation != generation { return; }
      CloseSessionSocket(sessions[env]);
      Schedule(env);
    }

    method ConnectEnv(env: Environment)
      requires Wellformed(View())
      modifies this
      ensures View() == Connect(old(View()), env)
    {
      if stopped || env !in sessions { return; }
      var x := sessions[env];
      var generation := objects[x].generation + 1;
      objects := objects[x := objects[x].(generation := generation, connection := Some(|conns|))];
      inFlight := inFlight + {|conns|};
      conns := conns + [Conn(x, generation, false, false)];
    }

    method ResumeConnect(c: nat, result: Result)
      requires Valid() && c in inFlight
      modifies this
      ensures View() == Step(old(View()), Settle(c, result))
      ensures Valid()
    {
      StepKeeps(View(), Settle(c, result));
      var x := conns[c].session;
      var env := objects[x].env;
      if stopped || objects[x].generation != conns[c].generation {
        CloseConnection(c);
        inFlight := inFlight - {c};
        return;
      }
      match result {
        case More =>
        case Done =>
          objects := objects[x := objects[x].(reconnectAttempt := 0)];
          conns := conns[c := conns[c].(live := true)];
          inFlight := inFlight - {c};
        case Fails =>
          CloseConnection(c);
          objects := objects[x := objects[x].(connection := None)];
          inFlight := inFlight - {c};
          Schedule(env);
      }
    }

    method ConnectionLost(c: nat)
      requires Valid() && c < |conns| && !conns[c].closed
      modifies this
      ensures View() == Step(old(View()), Lost(c))
      ensures Valid()
    {
      StepKeeps(View(), Lost(c));
      OnLost(objects[conns[c].session].env, conns[c].generation);
    }

    method TimerFired(env: Environment)
      requires Valid()
      modifies this
      ensures View() == Step(old(View()), TimerFires(env))
      ensures Valid()
    {
      StepKeeps(View(), TimerFires(env));
      if env !in sessions || !objects[sessions[env]].timer { return; }
      objects := objects[sessions[env] := objects[sessions[env]].(timer := false)];
      ConnectEnv(env);
    }

    /** One environment of `start`, once its accounts are loaded. */
    method Start(env: Environment)
      requires Valid()
      modifies this
      ensures View() == Step(old(View()), Started(env))
      ensures Valid()
    {
      StepKeeps(View(), Started(env));
      if env !in sessions { Seed(env); }
    }

    method NewEnvironment(env: Environment)
      requires Valid() && !stopped && env !in sessions
      modifies this
      ensures View() == Step(old(View()), Appear(env))
      ensures Valid()
    {
      StepKeeps(View(), Appear(env));
      Seed(env);
    }

    method Seed(env: Environment)
      requires Wellformed(View()) && env !in sessions
      modifies this
      ensures View() == NewSession(old(View()), env)
    {
      sessions := sessions[env := |objects|];
      objects := objects + [Session(env, 0, None, false, 0)];
      ConnectEnv(env);
    }

    method EnvironmentEmptied(env: Environment)
      requires Valid() && !stopped && env in sessions
      modifies this
      ensures View() == Step(old(View()), Emptied(env))
      ensures Valid()
    {
      StepKeeps(View(), Emptied(env));
      var x := sessions[env];
      objects := objects[x := objects[x].(timer := false, generation := objects[x].generation + 1)];
      CloseSessionSocket(x);
      sessions := sessions - {env};
    }

    /** The new generation is passed on, so that the loss handler's guard passes. */
    method EnvironmentChanged(env: Environment)
      requires Valid() && !stopped && env in sessions
      modifies this
      ensures View() == Step(old(View()), Changed(env))
      ensures Valid()
    {
      StepKeeps(View(), Changed(env));
      Supersede(env);
    }

    /** Bump the generation first, then lose the connection under the new one. */
    method Supersede(env: Environment)
      requires Wellformed(View()) && env in sessions
      modifies this
      ensures View() == Reconfigure(old(View()), env)
    {
      var x := sessions[env];
      objects := objects[x := objects[x].(generation := objects[x].generation + 1)];
      OnLost(env, objects[x].generation);
    }

    /** applyReconcile for one environment: whether it has accounts, and whether their signature differs. */
    method ReconcileEnv(env: Environment, wanted: bool, changed: bool)
      requires Valid() && !stopped
      modifies this
      ensures Valid()
      ensures old(env !in sessions) && wanted ==> View() == Step(old(View()), Appear(env))
      ensures old(env in sessions) && !wanted ==> View() == Step(old(View()), Emptied(env))
      ensures old(env in sessions) && wanted && changed ==> View() == Step(old(View()), Changed(env))
      ensures old(env !in sessions && !wanted) || old(env in sessions && wanted && !changed) ==> View() == old(View())
    {
      if env !in sessions {
        if wanted { NewEnvironment(env); }
      } else if !wanted {
        EnvironmentEmptied(env);
      } else if changed {
        EnvironmentChanged(env);
      }
    }

    method ReleaseEnv(env: Environment)
      requires Wellformed(View())
      modifies this
      ensures View() == Release(old(View()), env)
    {
      if env !in sessions { return; }
      var x := sessions[env];
      objects := objects[x := objects[x].(timer := false)];
      CloseSessionSocket(x);
      sessions := sessions - {env};
    }

    method OnModuleDestroy()
      requires Valid()
      modifies this
      ensures View() == Step(old(View()), Shutdown)
      ensures Valid()
    {
      StepKeeps(View(), Shutdown);
      ReleaseAll();
    }

    method ReleaseAll()
      requires Wellformed(View())
      modifies this
      ensures View() == Stop(old(View()))
    {
      stopped := true;
      ReleaseEnv(Demo);
      ReleaseEnv(Live);
    }
  }

  // ---- the loss signal of one connection ----

  /** The CtraderConnection object itself: `signals` counts the onLost calls. */
  class CtraderConnection {
    var lost: bool
    var heartbeat: bool
    var probe: bool
    ghost var signals: nat

    ghost predicate Valid()
      reads this
    {
      signals <= 1 && (signals == 1 ==> lost)
    }

    constructor ()
      ensures Valid() && signals == 0 && !lost
    {
      lost, heartbeat, probe, signals := false, false, false, 0;
    }

    /** The socket opened: both timers start, even if close() ran while the open was awaited. */
    method Opened()
      requires Valid()
      modifies this`heartbeat, this`probe
      ensures Valid() && heartbeat && probe
    {
      heartbeat, probe := true, true;
    }

    method ClearTimers()
      modifies this`heartbeat, this`probe
      ensures !heartbeat && !probe
    {
      heartbeat, probe := false, false;
    }

    method Close()
      requires Valid()
      modifies this
      ensures Valid() && lost && !heartbeat && !probe && signals == old(signals)
    {
      lost := true;
      ClearTimers();
    }

    /** A disconnect event or a failed probe: signalled at most once, and never after close(). */
    method Fail()
      requires Valid()
      modifies this
      ensures Valid() && lost
      ensures signals == if old(lost) then old(signals) else 1
      ensures !old(lost) ==> !heartbeat && !probe
    {
      if lost { return; }
      lost := true;
      ClearTimers();
      signals := signals + 1;
    }
  }
}
