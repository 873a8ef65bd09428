/**
 * TradeLocker close finalization: live closes fetched and written at most once at a time, the queue of
 * closes the report lagged on, and the history backfill, all interleaved at their awaits.
 */
module CloseFinalizer {
  import opened Common

  const CLOSE_TOPUP_MAX_RETRIES: nat := 12

  datatype Key = Key(account: string, position: string)

  /** A queued close, an object the retry loop keeps hold of. */
  datatype Pending = Pending(session: nat, key: Key, attempts: nat)

  datatype Caller = TopUp | Retry(pending: nat)

  datatype Stage = Authorizing | Fetching | Writing | Returned(ok: bool, thrown: bool) | Ended

  /** One call of finalizeClose that got past its guards, or returned from them. */
  datatype Task = Task(caller: Caller, session: nat, key: Key, stage: Stage)

  datatype BackfillStage =
    | Authorizing
    | Priming
    | Primed(rows: set<Key>)
    | Fetching
    | Scanning(left: seq<Key>, writing: bool)
    | Ended

  datatype Backfill = Backfill(account: string, session: nat, stage: BackfillStage)

  /** The reconcile pass: queued closes still to retry and the retry under way, then the accounts being loaded. */
  datatype Pass = NoPass | Retrying(left: seq<nat>, current: Option<nat>) | Loading | Applying

  datatype State = State(
    stopped: bool, sessions: map<string, nat>, made: nat, tokens: set<nat>,
    closedRows: set<Key>, closedSeen: set<Key>, primed: set<string>, finalizing: set<Key>,
    queue: map<Key, nat>, pendings: seq<Pending>, tasks: seq<Task>, backfills: seq<Backfill>, pass: Pass,
        notices: seq<Key>)

  datatype Found = Row | NoRow | Error

  datatype Event =
    | ClosePosition(key: Key)
    | Authorized(task: nat, ok: bool)
    | Fetched(task: nat, found: Found)
    | Wrote(task: nat, ok: bool, landed: bool)
    | Resume(task: nat)
    | Reconcile(order: seq<nat>)
    | RetryNext
    | Loaded
    | StopSession(account: string)
    | StartSession(account: string)
    | Applied
    | StartBackfill(account: string)
    | BackfillAuthorized(backfill: nat, ok: bool)
    | PrimeRead(backfill: nat, rows: set<Key>)
    | PrimeAdded(backfill: nat)
    | HistoryFetched(backfill: nat, positions: seq<Key>)
    | BackfillNext(backfill: nat)
    | BackfillWrote(backfill: nat, ok: bool, landed: bool)
    | SetToken(session: nat, present: bool)
    | Shutdown

  predicate InFlight(t: Task) {
    t.stage.Authorizing? || t.stage.Fetching? || t.stage.Writing?
  }

  predicate Current(s: State, session: nat, account: string) {
    account in s.sessions && s.sessions[account] == session
  }

  predicate TaskEvent(e: Event) {
    e.Authorized? || e.Fetched? || e.Wrote? || e.Resume?
  }

  predicate BackfillEvent(e: Event) {
    e.BackfillAuthorized? || e.PrimeRead? || e.PrimeAdded? || e.HistoryFetched? || e.BackfillNext? || e.BackfillWrote?
  }

  predicate TaskEnabled(t: Task, e: Event) {
    match e
    case Authorized(_, _) => t.stage.Authorizing?
    case Fetched(_, _) => t.stage.Fetching?
    case Wrote(_, ok, landed) => t.stage.Writing? && (ok ==> landed)
    case Resume(_) => t.stage.Returned?
    case _ => false
  }

  predicate BackfillEnabled(s: State, b: Backfill, e: Event) {
    match e
    case BackfillAuthorized(_, _) => b.stage.Authorizing?
    case PrimeRead(_, rows) => b.stage.Priming? && rows <= s.closedRows
    case PrimeAdded(_) => b.stage.Primed?
    case HistoryFetched(_, _) => b.stage.Fetching?
    case BackfillNext(_) => b.stage.Scanning? && !b.stage.writing
    case BackfillWrote(_, ok, landed) => b.stage.Scanning? && b.stage.writing && b.stage.left != [] && (ok ==> landed)
    case _ => false
  }

  /** The queued closes, each once; any order. */
  predicate Snapshot(s: State, order: seq<nat>) {
    && (forall i :: 0 <= i < |order| ==> order[i] in s.queue.Values)
    && (forall v :: v in s.queue.Values ==> v in order)
    && (forall i, j :: 0 <= i < j < |order| ==> order[i] != order[j])
  }

  predicate Enabled(s: State, e: Event) {
    if TaskEvent(e) then e.task < |s.tasks| && TaskEnabled(s.tasks[e.task], e)
    else if BackfillEvent(e) then e.backfill < |s.backfills| && BackfillEnabled(s, s.backfills[e.backfill], e)
    else match e
      case ClosePosition(k) => k.account in s.sessions
      case Reconcile(order) => !s.stopped && s.pass.NoPass? && Snapshot(s, order)
      case RetryNext => s.pass.Retrying? && s.pass.current.None?
      case Loaded => s.pass.Loading?
      case StopSession(a) => s.pass.Applying? && a in s.sessions
      case StartSession(a) => s.pass.Applying? && a !in s.sessions && !s.stopped
      case Applied => s.pass.Applying?
      case StartBackfill(a) => a in s.sessions
      case _ => true
  }

  // ---- finalizeClose ----

  /** The guards of finalizeClose, up to its first await. */
  function Begin(s: State, caller: Caller, session: nat, key: Key): State {
    if key in s.closedSeen then
      s.(queue := s.queue - {key}, tasks := s.tasks + [Task(caller, session, key, Returned(true, false))])
    else if key in s.finalizing || !Current(s, session, key.account) then
      s.(tasks := s.tasks + [Task(caller, session, key, Returned(false, false))])
    else s.(finalizing := s.finalizing + {key}, tasks := s.tasks + [Task(caller, session, key, Stage.Authorizing)])
  }

  /** Where a call of finalizeClose goes next. */
  function NextStage(t: Task, e: Event): Stage {
    match e
    case Authorized(_, ok) => if ok then Stage.Fetching else Returned(false, true)
    case Fetched(_, found) => if found == Row then Writing else Returned(false, found == Error)
    case Wrote(_, ok, _) => Returned(ok, !ok)
    case _ => Stage.Ended
  }

  /** A stage is set, and a call that ends gives up its claim on the position. */
  function Move(s: State, i: nat, stage: Stage): State
    requires i < |s.tasks|
  {
    var t := s.tasks[i].(stage := stage);
    s.(tasks := s.tasks[i := t], finalizing := if InFlight(t) then s.finalizing else s.finalizing - {t.key})
  }

  /** Write outcome: the row, the cache, the queue and the notification. */
  function Written(s: State, key: Key, ok: bool, landed: bool, notify: bool): State {
    s.(closedRows := if landed then s.closedRows + {key} else s.closedRows,
       closedSeen := if ok then s.closedSeen + {key} else s.closedSeen,
       queue := if ok then s.queue - {key} else s.queue,
       notices := if ok && notify then s.notices + [key] else s.notices)
  }

  /** The caller of finalizeClose takes its answer. */
  function Answered(s: State, t: Task): State {
    match t.caller
    case TopUp =>
      if t.stage.Returned? && !t.stage.ok && !t.stage.thrown && t.key !in s.queue
      then s.(queue := s.queue[t.key := |s.pendings|], pendings := s.pendings + [Pending(t.session, t.key, 0)])
      else s
    case Retry(p) =>
      var s' := if s.pass.Retrying? then s.(pass := s.pass.(current := None)) else s;
      if p >= |s.pendings| || (t.stage.Returned? && t.stage.ok) then s'
      else
        var pending := s.pendings[p].(attempts := s.pendings[p].attempts + 1);
        s'.(pendings := s.pendings[p := pending],
            queue := if pending.attempts >= CLOSE_TOPUP_MAX_RETRIES then s.queue - {t.key} else s.queue)
  }

  function TaskStep(s: State, e: Event): State
    requires TaskEvent(e) && Enabled(s, e)
  {
    var t := s.tasks[e.task];
    if e.Resume? then Answered(s, t).(tasks := s.tasks[e.task := t.(stage := Stage.Ended)])
    else Move(if e.Wrote? then Written(s, t.key, e.ok, e.landed, true) else s, e.task, NextStage(t, e))
  }

  // ---- the reconcile pass ----

  /** One turn of the retry loop over its snapshot of the queue. */
  function RetryTurn(s: State): State
    requires s.pass.Retrying? && s.pass.current.None?
  {
    if s.pass.left == [] then s.(pass := Loading)
    else if s.pass.left[0] >= |s.pendings| then s.(pass := Retrying(s.pass.left[1..], None))
    else
      var p := s.pass.left[0];
      var pending := s.pendings[p];
      var left := s.pass.left[1..];
      if !Current(s, pending.session, pending.key.account) then
        s.(pass := Retrying(left, None), queue := s.queue - {pending.key})
      else if pending.key in s.finalizing || pending.session !in s.tokens then s.(pass := Retrying(left, None))
      else Begin(s.(pass := Retrying(left, Some(|s.tasks|))), Retry(p), pending.session, pending.key)
  }

  /** Stopping a session drops its queued closes. */
  function Stopped(s: State, account: string): State
    requires account in s.sessions
  {
    s.(sessions := s.sessions - {account},
       queue := map k | k in s.queue && !Owns(s, s.sessions[account], s.queue[k]) :: s.queue[k])
  }

  predicate Owns(s: State, session: nat, pending: nat) {
    pending < |s.pendings| && s.pendings[pending].session == session
  }

  // ---- the history backfill ----

  predicate Skipped(s: State, k: Key) {
    k in s.closedSeen || k in s.finalizing
  }

  function NextBackfill(s: State, b: Backfill, e: Event): BackfillStage {
    match e
    case BackfillAuthorized(_, ok) =>
      if !ok then BackfillStage.Ended else if b.account in s.primed then BackfillStage.Fetching else Priming
    case PrimeRead(_, rows) => Primed(rows)
    case PrimeAdded(_) => BackfillStage.Fetching
    case HistoryFetched(_, positions) => Scanning(positions, false)
    case BackfillNext(_) =>
      if !b.stage.Scanning? || b.stage.left == [] then BackfillStage.Ended
      else if Skipped(s, b.stage.left[0]) then Scanning(b.stage.left[1..], false)
      else Scanning(b.stage.left, true)
    case BackfillWrote(_, ok, _) =>
      if ok && b.stage.Scanning? && b.stage.left != [] then Scanning(b.stage.left[1..], false) else BackfillStage.Ended
    case _ => BackfillStage.Ended
  }

  function BackfillStep(s: State, e: Event): State
    requires BackfillEvent(e) && Enabled(s, e)
  {
    var b := s.backfills[e.backfill];
    var s' :=
      if e.BackfillWrote? then Written(s, b.stage.left[0], e.ok, e.landed, false)
      else if e.PrimeAdded? then s.(closedSeen := s.closedSeen + b.stage.rows, primed := s.primed + {b.account})
      else s;
    s'.(backfills := s.backfills[e.backfill := b.(stage := NextBackfill(s, b, e))])
  }

  function ShutDown(s: State): State {
    s.(stopped := true, sessions := map[], queue := map[], closedSeen := {}, primed := {})
  }

  function Step(s: State, e: Event): State {
    if !Enabled(s, e) then s
    else if TaskEvent(e) then TaskStep(s, e)
    else if BackfillEvent(e) then BackfillStep(s, e)
    else match e
      case ClosePosition(k) => Begin(s, TopUp, s.sessions[k.account], k)
      case Reconcile(order) => s.(pass := Retrying(order, None))
      case RetryNext => RetryTurn(s)
      case Loaded => s.(pass := if s.stopped then NoPass else Applying)
      case StopSession(a) => Stopped(s, a)
      case StartSession(a) => s.(sessions := s.sessions[a := s.made], made := s.made + 1)
      case Applied => s.(pass := NoPass)
      case StartBackfill(a) => s.(backfills := s.backfills + [Backfill(a, s.sessions[a], BackfillStage.Authorizing)])
      case SetToken(session, present) => s.(tokens := if present then s.tokens + {session} else s.tokens - {session})
      case Shutdown => ShutDown(s)
      case _ => s
  }

  function Run(s: State, es: seq<Event>): State
    decreases |es|
  {
    if es == [] then s else Run(Step(s, es[0]), es[1..])
  }

  function Boot(closedRows: set<Key>): State {
    State(false, map[], 0, {}, closedRows, {}, {}, {}, map[], [], [], [], Applying, [])
  }

  // ---- invariants ----

  ghost predicate Rows(s: State) {
    && s.closedSeen <= s.closedRows && (forall k :: k in s.notices ==> k in s.closedRows)
    && forall i :: 0 <= i < |s.backfills| && s.backfills[i].stage.Primed? ==> s.backfills[i].stage.rows <= s.closedRows
  }

  predicate Sessions(s: State) {
    && (forall a :: a in s.sessions ==> s.sessions[a] < s.made)
    && (forall a, b :: a in s.sessions && b in s.sessions && a != b ==> s.sessions[a] != s.sessions[b])
    && (s.stopped ==> s.sessions == map[])
  }

  /** The claim set is exactly the positions with a finalize in flight, one each. */
  ghost predicate Claims(s: State) {
    && (forall k :: k in s.finalizing <==>
        exists i :: 0 <= i < |s.tasks| && InFlight(s.tasks[i]) && s.tasks[i].key == k)
    && (forall i, j :: 0 <= i < j < |s.tasks| && InFlight(s.tasks[i]) && InFlight(s.tasks[j]) ==>
        s.tasks[i].key != s.tasks[j].key)
  }

  ghost predicate Notices(s: State) {
    && (forall i, j :: 0 <= i < j < |s.notices| ==> s.notices[i] != s.notices[j])
    && (forall k :: k in s.notices ==> k !in s.finalizing && (k in s.closedSeen || s.stopped))
  }

  predicate Queue(s: State) {
    forall k :: k in s.queue ==>
      s.queue[k] < |s.pendings| && s.pendings[s.queue[k]].key == k
          && s.pendings[s.queue[k]].attempts < CLOSE_TOPUP_MAX_RETRIES
  }

  /** A close still to retry is queued, unless its position is done meanwhile. */
  predicate Waiting(s: State, p: nat) {
    && p < |s.pendings|
    && var k := s.pendings[p].key; (k in s.queue && s.queue[k] == p) || k in s.closedSeen || s.stopped
  }

  predicate Left(s: State) {
    s.pass.Retrying? ==>
      && (forall i :: 0 <= i < |s.pass.left| ==> Waiting(s, s.pass.left[i]))
      && (forall i, j :: 0 <= i < j < |s.pass.left| ==>
          s.pendings[s.pass.left[i]].key != s.pendings[s.pass.left[j]].key)
      && (s.pass.current.Some? ==> CurrentRetry(s, s.pass.current.value))
  }

  /** The retry under way is on a close of its own. */
  predicate CurrentRetry(s: State, i: nat) {
    s.pass.Retrying? && i < |s.tasks| && s.tasks[i].caller.Retry? && !s.tasks[i].stage.Ended?
    && forall j :: 0 <= j < |s.pass.left| && s.pass.left[j] < |s.pendings| ==>
        s.pendings[s.pass.left[j]].key != s.tasks[i].key
  }

  /** A retry's task is the pass's current one, and its object the queued one unless the position is done. */
  predicate RetryOk(s: State, i: nat)
    requires i < |s.tasks|
  {
    var t := s.tasks[i];
    t.caller.Retry? && !t.stage.Ended? ==>
      && Waiting(s, t.caller.pending) && s.pendings[t.caller.pending].key == t.key
      && s.pass.Retrying? && s.pass.current == Some(i)
  }

  predicate Retries(s: State) {
    Left(s) && forall i :: 0 <= i < |s.tasks| ==> RetryOk(s, i)
  }

  ghost predicate Inv(s: State) {
    Rows(s) && Sessions(s) && Claims(s) && Notices(s) && Queue(s) && Retries(s)
  }

  // ---- the building blocks keep them ----

  lemma BeginQueue(s: State, session: nat, key: Key)
    requires Inv(s)
    ensures Queue(Begin(s, TopUp, session, key)) && Left(Begin(s, TopUp, session, key))
  {
  }

  lemma BeginRetries(s: State, session: nat, key: Key, j: nat)
    requires Inv(s) && j < |Begin(s, TopUp, session, key).tasks|
    ensures RetryOk(Begin(s, TopUp, session, key), j)
  {
    assert j < |s.tasks| ==> RetryOk(s, j);
  }

  lemma BeginKeeps(s: State, session: nat, key: Key)
    requires Inv(s)
    ensures Inv(Begin(s, TopUp, session, key))
  {
    BeginClaims(s, TopUp, session, key);
    BeginQueue(s, session, key);
    var t := Begin(s, TopUp, session, key);
    forall j | 0 <= j < |t.tasks| ensures RetryOk(t, j) { BeginRetries(s, session, key, j); }
  }

  /** Somebody has a finalize of the position in flight. */
  ghost predicate Claimed(s: State, k: Key) {
    exists i :: 0 <= i < |s.tasks| && InFlight(s.tasks[i]) && s.tasks[i].key == k
  }

  /** What beginning a finalize does to the tasks: one more, in flight exactly if it takes the claim. */
  lemma BeginTasks(s: State, caller: Caller, session: nat, key: Key)
    ensures var t := Begin(s, caller, session, key);
      && |t.tasks| == |s.tasks| + 1 && t.tasks[..|s.tasks|] == s.tasks && t.tasks[|s.tasks|].key == key
      && t.finalizing == (if InFlight(t.tasks[|s.tasks|]) then s.finalizing + {key} else s.finalizing)
      && (InFlight(t.tasks[|s.tasks|]) ==> key !in s.finalizing)
  {
  }

  lemma ClaimOneMore(s: State, t: State, k: Key)
    requires Claims(s) && |t.tasks| == |s.tasks| + 1 && t.tasks[..|s.tasks|] == s.tasks
    requires var last := t.tasks[|s.tasks|];
      t.finalizing == if InFlight(last) then s.finalizing + {last.key} else s.finalizing
    ensures k in t.finalizing <==> Claimed(t, k)
  {
    var n := |s.tasks|;
    if i :| 0 <= i < n && InFlight(s.tasks[i]) && s.tasks[i].key == k { assert InFlight(t.tasks[i]); }
    if i :| 0 <= i < |t.tasks| && InFlight(t.tasks[i]) && t.tasks[i].key == k {
      if i < n { assert t.tasks[i] == s.tasks[i]; }
    }
    if InFlight(t.tasks[n]) && t.tasks[n].key == k { assert Claimed(t, k); }
  }

  lemma BeginClaims(s: State, caller: Caller, session: nat, key: Key)
    requires Claims(s)
    ensures Claims(Begin(s, caller, session, key))
  {
    var t := Begin(s, caller, session, key);
    BeginTasks(s, caller, session, key);
    forall k ensures k in t.finalizing <==> Claimed(t, k) { ClaimOneMore(s, t, k); }
    forall i, j | 0 <= i < j < |t.tasks| && InFlight(t.tasks[i]) && InFlight(t.tasks[j])
      ensures t.tasks[i].key != t.tasks[j].key
    {
      assert t.tasks[i] == s.tasks[i];
      if j < |s.tasks| { assert t.tasks[j] == s.tasks[j]; }
    }
  }

  lemma MoveClaims(s: State, i: nat, stage: Stage)
    requires Claims(s) && i < |s.tasks| && InFlight(s.tasks[i])
    ensures Claims(Move(s, i, stage))
  {
    var t := Move(s, i, stage);
    var key := s.tasks[i].key;
    assert key in s.finalizing;
    forall k ensures k in t.finalizing <==>
        exists j :: 0 <= j < |t.tasks| && InFlight(t.tasks[j]) && t.tasks[j].key == k {
      if j :| 0 <= j < |s.tasks| && InFlight(s.tasks[j]) && s.tasks[j].key == k {
        if j != i { assert InFlight(t.tasks[j]); }
        else if k in t.finalizing { assert InFlight(t.tasks[i]); }
      }
      if j :| 0 <= j < |t.tasks| && InFlight(t.tasks[j]) && t.tasks[j].key == k { assert InFlight(s.tasks[j]); }
    }
  }

  lemma MoveKeeps(s: State, i: nat, stage: Stage)
    requires Inv(s) && i < |s.tasks| && InFlight(s.tasks[i]) && !stage.Ended?
    ensures Inv(Move(s, i, stage))
  {
    MoveClaims(s, i, stage);
    var t := Move(s, i, stage);
    forall j | 0 <= j < |t.tasks| ensures RetryOk(t, j) { assert RetryOk(s, j); }
  }

  lemma WroteRetries(s: State, i: nat, ok: bool, landed: bool)
    requires Inv(s) && i < |s.tasks| && s.tasks[i].stage.Writing?
    ensures Retries(Move(Written(s, s.tasks[i].key, ok, landed, true), i, Returned(ok, !ok)))
  {
    var t := Move(Written(s, s.tasks[i].key, ok, landed, true), i, Returned(ok, !ok));
    forall j | 0 <= j < |t.tasks| ensures RetryOk(t, j) { assert RetryOk(s, j); }
  }

  /** A finalize's write, with the end of its claim. */
  lemma WroteKeeps(s: State, i: nat, ok: bool, landed: bool)
    requires Inv(s) && i < |s.tasks| && s.tasks[i].stage.Writing? && (ok ==> landed)
    ensures Inv(Move(Written(s, s.tasks[i].key, ok, landed, true), i, Returned(ok, !ok)))
  {
    var key := s.tasks[i].key;
    assert InFlight(s.tasks[i]) && key in s.finalizing && key !in s.notices;
    MoveClaims(Written(s, key, ok, landed, true), i, Returned(ok, !ok));
    WroteRetries(s, i, ok, landed);
  }

  lemma EndClaims(s: State, i: nat)
    requires Claims(s) && i < |s.tasks| && s.tasks[i].stage.Returned?
    ensures Claims(s.(tasks := s.tasks[i := s.tasks[i].(stage := Stage.Ended)]))
  {
    var t := s.(tasks := s.tasks[i := s.tasks[i].(stage := Stage.Ended)]);
    forall k ensures k in t.finalizing <==>
        exists j :: 0 <= j < |t.tasks| && InFlight(t.tasks[j]) && t.tasks[j].key == k {
      if j :| 0 <= j < |s.tasks| && InFlight(s.tasks[j]) && s.tasks[j].key == k { assert InFlight(t.tasks[j]); }
      if j :| 0 <= j < |t.tasks| && InFlight(t.tasks[j]) && t.tasks[j].key == k { assert InFlight(s.tasks[j]); }
    }
  }

  /** What taking an answer does not touch. */
  lemma AnsweredFrame(s: State, t: Task)
    ensures Answered(s, t) ==
        s.(pass := Answered(s, t).pass, queue := Answered(s, t).queue, pendings := Answered(s, t).pendings)
  {
  }

  lemma TopUpAnswered(s: State, i: nat)
    requires Inv(s) && i < |s.tasks| && s.tasks[i].stage.Returned? && s.tasks[i].caller.TopUp?
    ensures Queue(TaskStep(s, Resume(i))) && Retries(TaskStep(s, Resume(i)))
  {
    var t := TaskStep(s, Resume(i));
    forall j | 0 <= j < |t.tasks| ensures RetryOk(t, j) { assert RetryOk(s, j); }
  }

  lemma RetryAnswered(s: State, i: nat)
    requires Inv(s) && i < |s.tasks| && s.tasks[i].stage.Returned? && s.tasks[i].caller.Retry?
    ensures Queue(TaskStep(s, Resume(i))) && Retries(TaskStep(s, Resume(i)))
  {
    assert RetryOk(s, i);
    var t := TaskStep(s, Resume(i));
    forall j | 0 <= j < |t.tasks| ensures RetryOk(t, j) { assert RetryOk(s, j); }
  }

  lemma AnsweredKeeps(s: State, i: nat)
    requires Inv(s) && i < |s.tasks| && s.tasks[i].stage.Returned?
    ensures Inv(TaskStep(s, Resume(i)))
  {
    if s.tasks[i].caller.TopUp? { TopUpAnswered(s, i); } else { RetryAnswered(s, i); }
    EndClaims(s, i);
    AnsweredFrame(s, s.tasks[i]);
  }

  lemma RetryTurnClaims(s: State)
    requires Claims(s) && s.pass.Retrying? && s.pass.current.None?
    ensures Claims(RetryTurn(s))
  {
    if s.pass.left != [] && s.pass.left[0] < |s.pendings| {
      var p := s.pass.left[0];
      BeginClaims(s.(pass := Retrying(s.pass.left[1..], Some(|s.tasks|))), Retry(p), s.pendings[p].session,
          s.pendings[p].key);
    }
  }

  lemma RetryTurnQueue(s: State)
    requires Inv(s) && s.pass.Retrying? && s.pass.current.None?
    ensures Queue(RetryTurn(s))
  {
    assert s.pass.left != [] ==> Waiting(s, s.pass.left[0]);
  }

  lemma RetryTurnLeft(s: State)
    requires Inv(s) && s.pass.Retrying? && s.pass.current.None?
    ensures Left(RetryTurn(s))
  {
    var t := RetryTurn(s);
    assert s.pass.left != [] ==> Waiting(s, s.pass.left[0]);
    if t.pass.Retrying? {
      forall i | 0 <= i < |t.pass.left| ensures Waiting(t, t.pass.left[i]) { assert Waiting(s, s.pass.left[i + 1]); }
    }
  }

  lemma RetryTurnRetries(s: State, j: nat)
    requires Inv(s) && s.pass.Retrying? && s.pass.current.None? && j < |RetryTurn(s).tasks|
    ensures RetryOk(RetryTurn(s), j)
  {
    assert s.pass.left != [] ==> Waiting(s, s.pass.left[0]);
    assert j < |s.tasks| ==> RetryOk(s, j);
  }

  lemma RetryTurnKeeps(s: State)
    requires Inv(s) && s.pass.Retrying? && s.pass.current.None?
    ensures Inv(RetryTurn(s))
  {
    RetryTurnClaims(s);
    RetryTurnQueue(s);
    RetryTurnLeft(s);
    var t := RetryTurn(s);
    forall j | 0 <= j < |t.tasks| ensures RetryOk(t, j) { RetryTurnRetries(s, j); }
    assert s.pass.left != [] ==> Waiting(s, s.pass.left[0]);
  }

  lemma StoppedKeeps(s: State, a: string)
    requires Inv(s) && s.pass.Applying? && a in s.sessions
    ensures Inv(Stopped(s, a))
  {
    var t := Stopped(s, a);
    forall j | 0 <= j < |t.tasks| ensures RetryOk(t, j) { assert RetryOk(s, j); }
  }

  lemma BackfillKeeps(s: State, e: Event)
    requires Inv(s) && BackfillEvent(e) && Enabled(s, e)
    ensures Inv(BackfillStep(s, e))
  {
    var t := BackfillStep(s, e);
    forall j | 0 <= j < |t.tasks| ensures RetryOk(t, j) { assert RetryOk(s, j); }
  }

  lemma StepKeeps(s: State, e: Event)
    requires Inv(s)
    ensures Inv(Step(s, e))
  {
    if Enabled(s, e) {
      if TaskEvent(e) {
        var t := s.tasks[e.task];
        if e.Resume? { AnsweredKeeps(s, e.task); }
        else if e.Wrote? { WroteKeeps(s, e.task, e.ok, e.landed); }
        else { MoveKeeps(s, e.task, NextStage(t, e)); }
      } else if BackfillEvent(e) {
        BackfillKeeps(s, e);
      } else {
        PlainStepKeeps(s, e);
      }
    }
  }

  lemma PlainStepKeeps(s: State, e: Event)
    requires Inv(s) && Enabled(s, e) && !TaskEvent(e) && !BackfillEvent(e)
    ensures Inv(Step(s, e))
  {
    if e.ClosePosition? { BeginKeeps(s, s.sessions[e.key.account], e.key); }
    else if e.RetryNext? { RetryTurnKeeps(s); }
    else if e.StopSession? { StoppedKeeps(s, e.account); }
    else { QuietStepKeeps(s, e); }
  }

  lemma QuietStepKeeps(s: State, e: Event)
    requires Inv(s) && Enabled(s, e) && !TaskEvent(e) && !BackfillEvent(e)
    requires !e.ClosePosition? && !e.RetryNext? && !e.StopSession?
    ensures Inv(Step(s, e))
  {
    var t := Step(s, e);
    forall j | 0 <= j < |t.tasks| ensures RetryOk(t, j) { assert RetryOk(s, j); }
  }

  lemma {:induction false} RunKeeps(s: State, es: seq<Event>)
    requires Inv(s)
    ensures Inv(Run(s, es))
    decreases |es|
  {
    if es != [] {
      StepKeeps(s, es[0]);
      RunKeeps(Step(s, es[0]), es[1..]);
    }
  }

  lemma BootOk(rows: set<Key>)
    ensures Inv(Boot(rows))
  {
  }

  // ---- what every run keeps ----

  /** The cache is sound: a position it holds has a closed row, so skipping it loses nothing. */
  lemma CacheSound(rows: set<Key>, es: seq<Event>)
    ensures Run(Boot(rows), es).closedSeen <= Run(Boot(rows), es).closedRows
  {
    BootOk(rows);
    RunKeeps(Boot(rows), es);
  }

  /** A position is finalized by one call at a time, and claimed exactly while that call is in flight. */
  lemma OneFinalizeEach(rows: set<Key>, es: seq<Event>)
    ensures Claims(Run(Boot(rows), es))
  {
    BootOk(rows);
    RunKeeps(Boot(rows), es);
  }

  /** A close is announced at most once per process, and only once its row is closed. */
  lemma AnnouncedOnce(rows: set<Key>, es: seq<Event>)
    ensures var s := Run(Boot(rows), es);
      && (forall i, j :: 0 <= i < j < |s.notices| ==> s.notices[i] != s.notices[j])
      && (forall k :: k in s.notices ==> k in s.closedRows)
  {
    BootOk(rows);
    RunKeeps(Boot(rows), es);
  }

  /** A queued close has been retried fewer than twelve times. */
  lemma RetriesBounded(rows: set<Key>, es: seq<Event>, k: Key)
    requires k in Run(Boot(rows), es).queue
    ensures var s := Run(Boot(rows), es);
      s.queue[k] < |s.pendings| && s.pendings[s.queue[k]].key == k
          && s.pendings[s.queue[k]].attempts < CLOSE_TOPUP_MAX_RETRIES
  {
    BootOk(rows);
    RunKeeps(Boot(rows), es);
  }

  /**
   * A queued close leaves the queue only for a reason: its position is in the cache of finalized closes,
   * its retries are spent, its session is no longer the account's, or the process is shutting down.
   */
  lemma LeavesForAReason(rows: set<Key>, es: seq<Event>, e: Event, k: Key)
    requires k in Run(Boot(rows), es).queue
    requires k !in Step(Run(Boot(rows), es), e).queue
    ensures Done(Run(Boot(rows), es), Step(Run(Boot(rows), es), e), k)
  {
    BootOk(rows);
    RunKeeps(Boot(rows), es);
    LeavesStep(Run(Boot(rows), es), e, k);
  }

  /** Why a queued close may be gone. */
  predicate Done(s: State, t: State, k: Key)
    requires k in s.queue
  {
    var p := s.queue[k];
    && p < |s.pendings| <= |t.pendings|
    && (k in t.closedSeen || t.pendings[p].attempts >= CLOSE_TOPUP_MAX_RETRIES
        || !Current(t, s.pendings[p].session, k.account) || t.stopped)
  }

  lemma TaskLeaves(s: State, e: Event, k: Key)
    requires Inv(s) && TaskEvent(e) && Enabled(s, e) && k in s.queue && k !in TaskStep(s, e).queue
    ensures Done(s, TaskStep(s, e), k)
  {
    assert RetryOk(s, e.task);
  }

  lemma BackfillLeaves(s: State, e: Event, k: Key)
    requires Inv(s) && BackfillEvent(e) && Enabled(s, e) && k in s.queue && k !in BackfillStep(s, e).queue
    ensures Done(s, BackfillStep(s, e), k)
  {
  }

  lemma TurnLeaves(s: State, k: Key)
    requires Inv(s) && s.pass.Retrying? && s.pass.current.None? && k in s.queue && k !in RetryTurn(s).queue
    ensures Done(s, RetryTurn(s), k)
  {
    assert s.pass.left != [] ==> Waiting(s, s.pass.left[0]);
  }

  lemma StopLeaves(s: State, a: string, k: Key)
    requires Inv(s) && a in s.sessions && k in s.queue && k !in Stopped(s, a).queue
    ensures Done(s, Stopped(s, a), k)
  {
  }

  lemma LeavesStep(s: State, e: Event, k: Key)
    requires Inv(s) && k in s.queue && k !in Step(s, e).queue
    ensures Done(s, Step(s, e), k)
  {
    if TaskEvent(e) { TaskLeaves(s, e, k); }
    else if BackfillEvent(e) { BackfillLeaves(s, e, k); }
    else if e.RetryNext? { TurnLeaves(s, k); }
    else if e.StopSession? { StopLeaves(s, e.account, k); }
  }

  // ---- what every run achieves ----

  /** The closes whose write a finalize of theirs saw succeed, in order. */
  function Announced(s: State, es: seq<Event>): seq<Key>
    decreases |es|
  {
    if es == [] then [] else AnnouncedBy(s, es[0]) + Announced(Step(s, es[0]), es[1..])
  }

  function AnnouncedBy(s: State, e: Event): seq<Key> {
    if Enabled(s, e) && e.Wrote? && e.ok then [s.tasks[e.task].key] else []
  }

  /** The closes written to the table, by a finalize or by a backfill. */
  function Landed(s: State, es: seq<Event>): set<Key>
    decreases |es|
  {
    if es == [] then {}
    else LandedBy(s, es[0]) + Landed(Step(s, es[0]), es[1..])
  }

  function LandedBy(s: State, e: Event): set<Key> {
    if !Enabled(s, e) then {}
    else if e.Wrote? && e.landed then {s.tasks[e.task].key}
    else if e.BackfillWrote? && e.landed then {s.backfills[e.backfill].stage.left[0]}
    else {}
  }

  lemma NoticeStep(s: State, e: Event)
    ensures Step(s, e).notices == s.notices + AnnouncedBy(s, e)
  {
    assert s.notices + [] == s.notices;
  }

  lemma RowStep(s: State, e: Event)
    ensures Step(s, e).closedRows == s.closedRows + LandedBy(s, e)
  {
    if Enabled(s, e) && TaskEvent(e) { TaskRows(s, e); }
    else if Enabled(s, e) && BackfillEvent(e) { BackfillRows(s, e); }
  }

  lemma TaskRows(s: State, e: Event)
    requires TaskEvent(e) && Enabled(s, e)
    ensures TaskStep(s, e).closedRows == s.closedRows + LandedBy(s, e)
  {
  }

  lemma BackfillRows(s: State, e: Event)
    requires BackfillEvent(e) && Enabled(s, e)
    ensures BackfillStep(s, e).closedRows == s.closedRows + LandedBy(s, e)
  {
  }

  lemma {:induction false} NoticesOf(s: State, es: seq<Event>)
    ensures Run(s, es).notices == s.notices + Announced(s, es)
    decreases |es|
  {
    if es == [] {
      assert s.notices + [] == s.notices;
    } else {
      NoticeStep(s, es[0]);
      NoticesOf(Step(s, es[0]), es[1..]);
      Regroup(s.notices, AnnouncedBy(s, es[0]), Announced(Step(s, es[0]), es[1..]));
    }
  }

  lemma Regroup(x: seq<Key>, y: seq<Key>, z: seq<Key>)
    ensures x + y + z == x + (y + z)
  {
  }

  lemma {:induction false} RowsOf(s: State, es: seq<Event>)
    ensures Run(s, es).closedRows == s.closedRows + Landed(s, es)
    decreases |es|
  {
    if es != [] {
      RowStep(s, es[0]);
      RowsOf(Step(s, es[0]), es[1..]);
    }
  }

  /**
   * In every run the notices are exactly the closes that a finalize wrote successfully, in that order, and the
   * closed rows are exactly those there were and those written.
   */
  lemma AnnouncedExactly(rows: set<Key>, es: seq<Event>)
    ensures Run(Boot(rows), es).notices == Announced(Boot(rows), es)
    ensures Run(Boot(rows), es).closedRows == rows + Landed(Boot(rows), es)
  {
    NoticesOf(Boot(rows), es);
    RowsOf(Boot(rows), es);
    assert [] + Announced(Boot(rows), es) == Announced(Boot(rows), es);
  }

  /** An answer of true means that the row is closed. */
  ghost predicate TrueMeansClosed(s: State) {
    forall i :: 0 <= i < |s.tasks| && s.tasks[i].stage.Returned? && s.tasks[i].stage.ok ==>
      s.tasks[i].key in s.closedRows
  }

  lemma TaskTruth(s: State, e: Event)
    requires Inv(s) && TrueMeansClosed(s) && TaskEvent(e) && Enabled(s, e)
    ensures TrueMeansClosed(TaskStep(s, e))
  {
  }

  lemma BeginTruth(s: State, caller: Caller, session: nat, key: Key)
    requires s.closedSeen <= s.closedRows && TrueMeansClosed(s)
    ensures TrueMeansClosed(Begin(s, caller, session, key))
  {
  }

  lemma PlainTruth(s: State, e: Event)
    requires Inv(s) && TrueMeansClosed(s) && Enabled(s, e) && !TaskEvent(e)
    ensures TrueMeansClosed(Step(s, e))
  {
    if e.ClosePosition? {
      BeginTruth(s, TopUp, s.sessions[e.key.account], e.key);
    } else if e.RetryNext? {
      if s.pass.left != [] && s.pass.left[0] < |s.pendings| {
        var p := s.pass.left[0];
        BeginTruth(s.(pass := Retrying(s.pass.left[1..], Some(|s.tasks|))), Retry(p), s.pendings[p].session,
                   s.pendings[p].key);
      }
    } else {
      RowStep(s, e);
      assert Step(s, e).tasks == s.tasks;
    }
  }

  lemma {:induction false} TruthKept(s: State, es: seq<Event>)
    requires Inv(s) && TrueMeansClosed(s)
    ensures TrueMeansClosed(Run(s, es))
    decreases |es|
  {
    if es != [] {
      StepKeeps(s, es[0]);
      if Enabled(s, es[0]) { if TaskEvent(es[0]) { TaskTruth(s, es[0]); } else { PlainTruth(s, es[0]); } }
      TruthKept(Step(s, es[0]), es[1..]);
    }
  }

  /** In every run a finalize that answers true leaves a closed row. */
  lemma TrueIsClosed(rows: set<Key>, es: seq<Event>, i: nat)
    requires var s := Run(Boot(rows), es); i < |s.tasks| && s.tasks[i].stage.Returned? && s.tasks[i].stage.ok
    ensures var s := Run(Boot(rows), es); s.tasks[i].key in s.closedRows
  {
    BootOk(rows);
    TruthKept(Boot(rows), es);
  }

  /** The call just made has claimed its position, and goes on to fetch it. */
  predicate TakesUp(s: State, t: State, caller: Caller, session: nat, key: Key) {
    && |t.tasks| == |s.tasks| + 1 && t.tasks[|s.tasks|] == Task(caller, session, key, Stage.Authorizing)
    && key in t.finalizing
  }

  /**
   * A live close is fetched exactly when it is neither cached nor claimed; a cached one answers true at once, and a
   * claimed one false.
   */
  lemma CloseBegins(s: State, k: Key)
    requires k.account in s.sessions
    ensures var t := Step(s, ClosePosition(k)); var session := s.sessions[k.account];
      && (TakesUp(s, t, TopUp, session, k) <==> k !in s.closedSeen && k !in s.finalizing)
      && (!TakesUp(s, t, TopUp, session, k) ==>
            t.tasks == s.tasks + [Task(TopUp, session, k, Returned(k in s.closedSeen, false))])
      && t.queue == if k in s.closedSeen then s.queue - {k} else s.queue
  {
  }

  /**
   * A turn of the retry loop takes the next queued close: it is dropped if its session is gone, passed over while
   * claimed or without a token, and otherwise tried again.
   */
  lemma RetryBegins(s: State)
    requires s.pass.Retrying? && s.pass.current.None? && s.pass.left != [] && s.pass.left[0] < |s.pendings|
    ensures var t, p := Step(s, RetryNext), s.pass.left[0];
      var k, session := s.pendings[p].key, s.pendings[p].session;
      var current, busy := Current(s, session, k.account), k in s.finalizing || session !in s.tokens;
      && t.pass.Retrying? && t.pass.left == s.pass.left[1..]
      && (!current ==> k !in t.queue && t.tasks == s.tasks)
      && (current && busy ==> t.queue == s.queue && t.tasks == s.tasks)
      && (current && !busy ==> t.pass.current == Some(|s.tasks|))
      && (current && !busy && k in s.closedSeen ==>
            t.tasks == s.tasks + [Task(Retry(p), session, k, Returned(true, false))] && k !in t.queue)
      && (current && !busy && k !in s.closedSeen ==> TakesUp(s, t, Retry(p), session, k))
  {
  }

  /** A close whose row is found is written: closed, cached, announced, out of the queue and unclaimed. */
  lemma FoundIsWritten(s: State, i: nat)
    requires Inv(s) && i < |s.tasks| && s.tasks[i].stage == Stage.Authorizing
    ensures var k := s.tasks[i].key;
      var t := Step(Step(Step(s, Authorized(i, true)), Fetched(i, Row)), Wrote(i, true, true));
      && k in t.closedRows && k in t.closedSeen && k !in t.queue && k !in t.finalizing
      && t.notices == s.notices + [k] && t.tasks[i] == s.tasks[i].(stage := Returned(true, false))
  {
    var s1 := Step(s, Authorized(i, true));
    var s2 := Step(s1, Fetched(i, Row));
    assert s1.tasks[i] == s.tasks[i].(stage := Stage.Fetching) && s1.notices == s.notices;
    assert s2.tasks[i] == s.tasks[i].(stage := Writing) && s2.notices == s.notices;
  }

  lemma AnswerWaits(s: State, e: Event, i: nat)
    requires i < |s.tasks| && s.tasks[i].stage.Returned? && e != Resume(i)
    ensures i < |Step(s, e).tasks| && Step(s, e).tasks[i] == s.tasks[i]
  {
  }

  lemma {:induction false} AnswerKept(s: State, es: seq<Event>, i: nat)
    requires i < |s.tasks| && s.tasks[i].stage.Returned? && Resume(i) !in es
    ensures i < |Run(s, es).tasks| && Run(s, es).tasks[i] == s.tasks[i]
    decreases |es|
  {
    if es != [] {
      assert es[0] in es;
      AnswerWaits(s, es[0], i);
      AnswerKept(Step(s, es[0]), es[1..], i);
    }
  }

  /** A live close whose row the report does not have yet is queued for a retry, whatever happens in between. */
  lemma MissIsQueued(s: State, i: nat, es: seq<Event>)
    requires i < |s.tasks| && s.tasks[i].caller == TopUp && s.tasks[i].stage == Stage.Fetching && Resume(i) !in es
    ensures var t := Run(Step(s, Fetched(i, NoRow)), es);
      s.tasks[i].key in Step(t, Resume(i)).queue
      && (s.tasks[i].key !in t.queue ==>
            Step(t, Resume(i)).pendings == t.pendings + [Pending(s.tasks[i].session, s.tasks[i].key, 0)])
  {
    var s1 := Step(s, Fetched(i, NoRow));
    assert s1.tasks[i] == s.tasks[i].(stage := Returned(false, false));
    AnswerKept(s1, es, i);
  }

  /** A live close that fails is not queued: the next backfill is left to find it. */
  lemma FailureIsNotQueued(s: State, i: nat, e: Event, es: seq<Event>)
    requires i < |s.tasks| && s.tasks[i].caller == TopUp && Enabled(s, e) && Resume(i) !in es
    requires e == Authorized(i, false) || e == Fetched(i, Error) || (e.Wrote? && e.task == i && !e.ok)
    ensures var t := Run(Step(s, e), es); Step(t, Resume(i)).queue == t.queue
  {
    var s1 := Step(s, e);
    assert s1.tasks[i] == s.tasks[i].(stage := Returned(false, true));
    AnswerKept(s1, es, i);
  }

  /** The failed retries of a queued close. */
  function FailedRetries(s: State, es: seq<Event>, p: nat): nat
    decreases |es|
  {
    if es == [] then 0
    else (if FailedRetry(s, es[0], p) then 1 else 0) + FailedRetries(Step(s, es[0]), es[1..], p)
  }

  predicate FailedRetry(s: State, e: Event, p: nat) {
    e.Resume? && Enabled(s, e) && s.tasks[e.task].caller == Retry(p) && !s.tasks[e.task].stage.ok
  }

  predicate Counts(s: State, t: State, e: Event, p: nat)
    requires p < |s.pendings|
  {
    && p < |t.pendings| && t.pendings[p] == s.pendings[p].(attempts := t.pendings[p].attempts)
    && t.pendings[p].attempts == s.pendings[p].attempts + if FailedRetry(s, e, p) then 1 else 0
  }

  lemma AttemptTask(s: State, e: Event, p: nat)
    requires p < |s.pendings| && TaskEvent(e) && Enabled(s, e)
    ensures Counts(s, TaskStep(s, e), e, p)
  {
  }

  lemma AttemptStep(s: State, e: Event, p: nat)
    requires p < |s.pendings|
    ensures Counts(s, Step(s, e), e, p)
  {
    if TaskEvent(e) && Enabled(s, e) { AttemptTask(s, e, p); }
    else if BackfillEvent(e) && Enabled(s, e) { BackfillPendings(s, e); }
  }

  lemma BackfillPendings(s: State, e: Event)
    requires BackfillEvent(e) && Enabled(s, e)
    ensures BackfillStep(s, e).pendings == s.pendings
  {
  }

  /** Its attempts count exactly its failed retries; the twelfth drops it. */
  lemma {:induction false} AttemptsExactly(s: State, es: seq<Event>, p: nat)
    requires p < |s.pendings|
    ensures p < |Run(s, es).pendings| && Run(s, es).pendings[p].key == s.pendings[p].key
    ensures Run(s, es).pendings[p].attempts == s.pendings[p].attempts + FailedRetries(s, es, p)
    decreases |es|
  {
    if es != [] {
      AttemptStep(s, es[0], p);
      AttemptsExactly(Step(s, es[0]), es[1..], p);
    }
  }

  /** What a backfill has still to write. */
  function Ahead(s: State, b: nat): seq<Key> {
    if b < |s.backfills| && s.backfills[b].stage.Scanning? then s.backfills[b].stage.left else []
  }

  /**
   * A backfill passes over a close only if it is in the cache, having been written by this or any other call, or
   * a finalize of it is in flight; it stops short only when a write of its own fails.
   */
  lemma NoClosePassedOver(rows: set<Key>, es: seq<Event>, e: Event, b: nat, k: Key)
    requires var s := Run(Boot(rows), es); k in Ahead(s, b) && k !in Ahead(Step(s, e), b)
    ensures Handled(Step(Run(Boot(rows), es), e), e, b, k)
  {
    PassedStep(Run(Boot(rows), es), e, b, k);
  }

  predicate Handled(s: State, e: Event, b: nat, k: Key) {
    k in s.closedSeen || k in s.finalizing || (e.BackfillWrote? && e.backfill == b && !e.ok)
  }

  /** It writes no close that is in the cache or claimed. */
  lemma BackfillWritesNew(s: State, e: Event, b: nat)
    requires b < |s.backfills| && b < |Step(s, e).backfills|
    requires var stage := Step(s, e).backfills[b].stage; stage.Scanning? && stage.writing
    requires !(s.backfills[b].stage.Scanning? && s.backfills[b].stage.writing)
    ensures Ahead(Step(s, e), b) != [] && !Skipped(s, Ahead(Step(s, e), b)[0])
  {
    if !(BackfillEvent(e) && Enabled(s, e) && e.backfill == b) { BackfillsKept(s, e, b); }
  }

  lemma PassedOwn(s: State, e: Event, b: nat, k: Key)
    requires BackfillEvent(e) && Enabled(s, e) && e.backfill == b
    requires k in Ahead(s, b) && k !in Ahead(BackfillStep(s, e), b)
    ensures Handled(BackfillStep(s, e), e, b, k)
  {
    var left := Ahead(s, b);
    assert left == [left[0]] + left[1..];
  }

  lemma BackfillsKept(s: State, e: Event, b: nat)
    requires b < |s.backfills| && !(BackfillEvent(e) && Enabled(s, e) && e.backfill == b)
    ensures b < |Step(s, e).backfills| && Step(s, e).backfills[b] == s.backfills[b]
  {
  }

  lemma PassedStep(s: State, e: Event, b: nat, k: Key)
    requires k in Ahead(s, b) && k !in Ahead(Step(s, e), b)
    ensures Handled(Step(s, e), e, b, k)
  {
    if BackfillEvent(e) && Enabled(s, e) && e.backfill == b {
      PassedOwn(s, e, b, k);
    } else {
      BackfillsKept(s, e, b);
    }
  }

  // ---- the manager's close handling ----

  class CloseManager {
    var stopped: bool
    var sessions: map<string, nat>
    var made: nat
    var tokens: set<nat>
    var closedRows: set<Key>
    var closedSeen: set<Key>
    var primed: set<string>
    var finalizing: set<Key>
    var queue: map<Key, nat>
    var pendings: seq<Pending>
    var tasks: seq<Task>
    var backfills: seq<Backfill>
    var pass: Pass
    var notices: seq<Key>

    function View(): State
      reads this
    {
      State(stopped, sessions, made, tokens, closedRows, closedSeen, primed, finalizing, queue, pendings, tasks,
          backfills, pass, notices)
    }

    ghost predicate Valid()
      reads this
    {
      Inv(View())
    }

    constructor (rows: set<Key>)
      ensures Valid() && View() == Boot(rows)
    {
      stopped, sessions, made, tokens, closedRows := false, map[], 0, {}, rows;
      closedSeen, primed, finalizing, queue, pendings := {}, {}, {}, map[], [];
      tasks, backfills, pass, notices := [], [], Applying, [];
    }

    /** finalizeClose up to its first await. */
    method BeginFinalize(caller: Caller, session: nat, key: Key)
      modifies this`queue, this`tasks, this`finalizing
      ensures View() == Begin(old(View()), caller, session, key)
    {
      if key in closedSeen {
        queue := queue - {key};
        tasks := tasks + [Task(caller, session, key, Returned(true, false))];
      } else if key in finalizing || key.account !in sessions || sessions[key.account] != session {
        tasks := tasks + [Task(caller, session, key, Returned(false, false))];
      } else {
        finalizing := finalizing + {key};
        tasks := tasks + [Task(caller, session, key, Stage.Authorizing)];
      }
    }

    method HandleClose(key: Key)
      requires Valid() && key.account in sessions
      modifies this`queue, this`tasks, this`finalizing
      ensures View() == Step(old(View()), ClosePosition(key))
      ensures Valid()
    {
      StepKeeps(View(), ClosePosition(key));
      BeginFinalize(TopUp, sessions[key.account], key);
    }

    method MoveTask(i: nat, stage: Stage)
      requires i < |tasks|
      modifies this`tasks, this`finalizing
      ensures View() == Move(old(View()), i, stage)
    {
      var t := tasks[i].(stage := stage);
      if !InFlight(t) { finalizing := finalizing - {t.key}; }
      tasks := tasks[i := t];
    }

    method RecordWritten(key: Key, ok: bool, landed: bool, notify: bool)
      modifies this`closedRows, this`closedSeen, this`queue, this`notices
      ensures View() == Written(old(View()), key, ok, landed, notify)
    {
      if landed { closedRows := closedRows + {key}; }
      if ok {
        closedSeen := closedSeen + {key};
        queue := queue - {key};
        if notify { notices := notices + [key]; }
      }
    }

    /** An await inside finalizeClose has settled. */
    method ContinueFinalize(e: Event)
      requires Valid() && (e.Authorized? || e.Fetched? || e.Wrote?) && Enabled(View(), e)
      modifies this`tasks, this`finalizing, this`closedRows, this`closedSeen, this`queue, this`notices
      ensures View() == Step(old(View()), e)
      ensures Valid()
    {
      StepKeeps(View(), e);
      var t := tasks[e.task];
      if e.Wrote? { RecordWritten(t.key, e.ok, e.landed, true); }
      MoveTask(e.task, NextStage(t, e));
    }

    /** topUpClose or the retry loop takes finalizeClose's answer. */
    method ResumeCaller(i: nat)
      requires Valid() && i < |tasks| && tasks[i].stage.Returned?
      modifies this`tasks, this`queue, this`pendings, this`pass
      ensures View() == Step(old(View()), Resume(i))
      ensures Valid()
    {
      StepKeeps(View(), Resume(i));
      assert RetryOk(View(), i);
      TakeAnswer(i);
    }

    method TakeAnswer(i: nat)
      requires i < |tasks| && tasks[i].stage.Returned?
      requires tasks[i].caller.Retry? ==> tasks[i].caller.pending < |pendings| && pass.Retrying?
      modifies this`tasks, this`queue, this`pendings, this`pass
      ensures View() == TaskStep(old(View()), Resume(i))
    {
      var t := tasks[i];
      tasks := tasks[i := t.(stage := Stage.Ended)];
      match t.caller {
        case TopUp =>
          if !t.stage.ok && !t.stage.thrown && t.key !in queue {
            queue := queue[t.key := |pendings|];
            pendings := pendings + [Pending(t.session, t.key, 0)];
          }
        case Retry(p) =>
          pass := pass.(current := None);
          if !t.stage.ok {
            var attempts := pendings[p].attempts + 1;
            pendings := pendings[p := pendings[p].(attempts := attempts)];
            if attempts >= CLOSE_TOPUP_MAX_RETRIES { queue := queue - {t.key}; }
          }
      }
    }

    method RetryPendingClose()
      requires Valid() && pass.Retrying? && pass.current.None?
      modifies this`tasks, this`queue, this`pass, this`finalizing
      ensures View() == Step(old(View()), RetryNext)
      ensures Valid()
    {
      StepKeeps(View(), RetryNext);
      if pass.left == [] {
        pass := Loading;
      } else {
        var p, left := pass.left[0], pass.left[1..];
        assert Waiting(View(), p);
        var pending := pendings[p];
        if pending.key.account !in sessions || sessions[pending.key.account] != pending.session {
          queue := queue - {pending.key};
          pass := Retrying(left, None);
        } else if pending.key in finalizing || pending.session !in tokens {
          pass := Retrying(left, None);
        } else {
          pass := Retrying(left, Some(|tasks|));
          BeginFinalize(Retry(p), pending.session, pending.key);
        }
      }
    }

    method StopAccount(a: string)
      requires Valid() && pass.Applying? && a in sessions
      modifies this`sessions, this`queue
      ensures View() == Step(old(View()), StopSession(a))
      ensures Valid()
    {
      StepKeeps(View(), StopSession(a));
      DropSession(a);
    }

    method DropSession(a: string)
      requires a in sessions
      modifies this`sessions, this`queue
      ensures View() == Stopped(old(View()), a)
    {
      var session := sessions[a];
      queue := map k | k in queue && !(queue[k] < |pendings| && pendings[queue[k]].session == session) :: queue[k];
      sessions := sessions - {a};
    }

    /** An await inside backfillCloses has settled, or its loop takes the next trade. */
    method ContinueBackfill(e: Event)
      requires Valid() && BackfillEvent(e) && Enabled(View(), e)
      modifies this`backfills, this`closedRows, this`closedSeen, this`queue, this`notices, this`primed
      ensures View() == Step(old(View()), e)
      ensures Valid()
    {
      StepKeeps(View(), e);
      AdvanceBackfill(e);
    }

    method AdvanceBackfill(e: Event)
      requires BackfillEvent(e) && Enabled(View(), e)
      modifies this`backfills, this`closedRows, this`closedSeen, this`queue, this`notices, this`primed
      ensures View() == BackfillStep(old(View()), e)
    {
      var b := backfills[e.backfill];
      var next := NextBackfill(View(), b, e);
      if e.BackfillWrote? {
        RecordWritten(b.stage.left[0], e.ok, e.landed, false);
      } else if e.PrimeAdded? {
        closedSeen := closedSeen + b.stage.rows;
        primed := primed + {b.account};
      }
      backfills := backfills[e.backfill := b.(stage := next)];
    }

    method OnShutdown()
      requires Valid()
      modifies this`stopped, this`sessions, this`queue, this`closedSeen, this`primed
      ensures View() == Step(old(View()), Shutdown)
      ensures Valid()
    {
      StepKeeps(View(), Shutdown);
      Forget();
    }

    method Forget()
      modifies this`stopped, this`sessions, this`queue, this`closedSeen, this`primed
      ensures View() == ShutDown(old(View()))
    {
      stopped, sessions, queue, closedSeen, primed := true, map[], map[], {}, {};
    }
  }
}
