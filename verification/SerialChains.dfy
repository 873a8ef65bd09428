/**
 * The per-position promise chains (`serialize`) that the three trade writers share, around a
 * read-modify-write of one row. A task reads its row and writes it back at separate steps, between
 * which any other task may run; `apply` is the row a task computes from the one it read.
 */
module SerialChains {
  import opened Common

  type Key = string

  /** Where a task's promises stand: `Settled` is the tail promise, after the clean-up callback. */
  datatype Phase = Waiting | Running | Holding | Ended | Settled

  datatype Task<Row, Op> = Task(
    key: Key, op: Op, previous: Option<nat>, phase: Phase, snapshot: Option<Row>, applied: bool)

  datatype State<Row, Op> = State(tasks: seq<Task<Row, Op>>, chains: map<Key, nat>, rows: map<Key, Row>)

  datatype Event<Op> =
    | Submit(key: Key, op: Op)
    | Begin(task: nat)                  // the previous tail settled
    | Read(task: nat)
    | Write(task: nat, applied: bool)   // the upsert settles, with or without effect
    | Abort(task: nat)                  // the task throws before writing
    | Cleanup(task: nat)                // catch().finally(): drop the chain if it is still ours

  function Lookup<Row>(rows: map<Key, Row>, k: Key): Option<Row> {
    if k in rows then Some(rows[k]) else None
  }

  function Store<Row>(rows: map<Key, Row>, k: Key, r: Option<Row>): map<Key, Row> {
    if r.Some? then rows[k := r.value] else rows
  }

  function SetTask<Row, Op>(s: State<Row, Op>, i: nat, t: Task<Row, Op>): State<Row, Op>
    requires i < |s.tasks|
  {
    s.(tasks := s.tasks[i := t])
  }

  predicate Enabled<Row, Op>(s: State<Row, Op>, e: Event<Op>) {
    match e
    case Submit(_, _) => true
    case Begin(i) =>
      i < |s.tasks| && s.tasks[i].phase == Waiting &&
      match s.tasks[i].previous { case None => true case Some(p) => p < |s.tasks| && s.tasks[p].phase == Settled }
    case Read(i) => i < |s.tasks| && s.tasks[i].phase == Running
    case Write(i, _) => i < |s.tasks| && s.tasks[i].phase == Holding
    case Abort(i) => i < |s.tasks| && s.tasks[i].phase in {Running, Holding}
    case Cleanup(i) => i < |s.tasks| && s.tasks[i].phase == Ended
  }

  function Step<Row, Op>(apply: (Option<Row>, Op) -> Option<Row>, s: State<Row, Op>, e: Event<Op>): State<Row, Op> {
    if !Enabled(s, e) then s
    else match e
      case Submit(k, op) =>
        s.(tasks := s.tasks + [Task(k, op, if k in s.chains then Some(s.chains[k]) else None, Waiting, None, false)],
           chains := s.chains[k := |s.tasks|])
      case Begin(i) => SetTask(s, i, s.tasks[i].(phase := Running))
      case Read(i) => SetTask(s, i, s.tasks[i].(phase := Holding, snapshot := Lookup(s.rows, s.tasks[i].key)))
      case Write(i, applied) =>
        var t := s.tasks[i];
        var s1 := SetTask(s, i, t.(phase := Ended, applied := applied));
        if applied then s1.(rows := Store(s.rows, t.key, apply(t.snapshot, t.op))) else s1
      case Abort(i) => SetTask(s, i, s.tasks[i].(phase := Ended))
      case Cleanup(i) =>
        var k := s.tasks[i].key;
        SetTask(s, i, s.tasks[i].(phase := Settled)).(
          chains := if k in s.chains && s.chains[k] == i then s.chains - {k} else s.chains)
  }

  /** What the row of `k` should be: the tasks that took effect, one after the other in submission order. */
  function Replay<Row, Op>(apply: (Option<Row>, Op) -> Option<Row>, start: Option<Row>, tasks: seq<Task<Row, Op>>,
      k: Key)
    : Option<Row>
    decreases |tasks|
  {
    if tasks == [] then start
    else
      var last := tasks[|tasks| - 1];
      var r := Replay(apply, start, tasks[..|tasks| - 1], k);
      if last.key == k && last.applied then After(apply, r, last.op) else r
  }

  /** A task that computes no row leaves the stored one alone. */
  function After<Row, Op>(apply: (Option<Row>, Op) -> Option<Row>, r: Option<Row>, op: Op): Option<Row> {
    var x := apply(r, op);
    if x.Some? then x else r
  }

  // ---- invariants ----

  predicate Same<Row, Op>(s: State<Row, Op>, i: nat, j: nat)
    requires i < |s.tasks| && j < |s.tasks|
  {
    s.tasks[i].key == s.tasks[j].key
  }

  /** A task that has begun has only settled tasks of its key before it. */
  ghost predicate Ordered<Row, Op>(s: State<Row, Op>) {
    && (forall i, j :: 0 <= i < j < |s.tasks| && Same(s, i, j) && s.tasks[j].phase != Waiting ==>
        s.tasks[i].phase == Settled)
    && (forall i :: 0 <= i < |s.tasks| && s.tasks[i].phase in {Waiting, Running, Holding} ==> !s.tasks[i].applied)
  }

  /** A task waits for its predecessor of the same key, unless every earlier one had settled. */
  ghost predicate Linked<Row, Op>(s: State<Row, Op>) {
    forall i, j :: 0 <= i < j < |s.tasks| && Same(s, i, j) ==>
      match s.tasks[j].previous
      case None => s.tasks[i].phase == Settled
      case Some(p) => i <= p < j && Same(s, p, j)
  }

  ghost predicate PreviousValid<Row, Op>(s: State<Row, Op>) {
    forall j :: 0 <= j < |s.tasks| && s.tasks[j].previous.Some? ==>
      s.tasks[j].previous.value < j && Same(s, s.tasks[j].previous.value, j)
  }

  /** The chain of a key is its last task while that is unsettled; otherwise there is none. */
  ghost predicate Chained<Row, Op>(s: State<Row, Op>) {
    && (forall k :: k in s.chains ==>
          s.chains[k] < |s.tasks| && s.tasks[s.chains[k]].key == k && s.tasks[s.chains[k]].phase != Settled)
    && (forall i :: 0 <= i < |s.tasks| ==>
          if s.tasks[i].key in s.chains then i <= s.chains[s.tasks[i].key] else s.tasks[i].phase == Settled)
  }

  ghost predicate Consistent<Row, Op>(apply: (Option<Row>, Op) -> Option<Row>, start: map<Key, Row>,
      s: State<Row, Op>) {
    && (forall i :: 0 <= i < |s.tasks| && s.tasks[i].phase == Holding ==>
          s.tasks[i].snapshot == Lookup(s.rows, s.tasks[i].key))
    && (forall k :: Lookup(s.rows, k) == Replay(apply, Lookup(start, k), s.tasks, k))
  }

  ghost predicate Inv<Row, Op>(apply: (Option<Row>, Op) -> Option<Row>, start: map<Key, Row>, s: State<Row, Op>) {
    Ordered(s) && Linked(s) && PreviousValid(s) && Chained(s) && Consistent(apply, start, s)
  }

  /** Every step but a submission leaves the tasks' keys and links alone, and settled tasks settled. */
  ghost predicate Advanced<Row, Op>(s: State<Row, Op>, t: State<Row, Op>) {
    && |t.tasks| == |s.tasks|
    && forall i :: 0 <= i < |s.tasks| ==>
         && t.tasks[i].key == s.tasks[i].key && t.tasks[i].previous == s.tasks[i].previous
         && (s.tasks[i].phase == Settled ==> t.tasks[i].phase == Settled)
  }

  lemma StepAdvances<Row, Op>(apply: (Option<Row>, Op) -> Option<Row>, s: State<Row, Op>, e: Event<Op>)
    requires !e.Submit?
    ensures Advanced(s, Step(apply, s, e))
  {
  }

  lemma LinkedAdvance<Row, Op>(s: State<Row, Op>, t: State<Row, Op>)
    requires Linked(s) && PreviousValid(s) && Advanced(s, t)
    ensures Linked(t) && PreviousValid(t)
  {
    forall i, j | 0 <= i < j < |t.tasks| && Same(t, i, j) ensures Same(s, i, j) {}
  }

  lemma LinkedSubmit<Row, Op>(apply: (Option<Row>, Op) -> Option<Row>, s: State<Row, Op>, k: Key, op: Op)
    requires Linked(s) && PreviousValid(s) && Chained(s)
    ensures Linked(Step(apply, s, Submit(k, op))) && PreviousValid(Step(apply, s, Submit(k, op)))
  {
    var t := Step(apply, s, Submit(k, op));
    forall i, j | 0 <= i < j < |t.tasks| && Same(t, i, j) && j < |s.tasks| ensures Same(s, i, j) {}
  }

  lemma LinkedStep<Row, Op>(apply: (Option<Row>, Op) -> Option<Row>, s: State<Row, Op>, e: Event<Op>)
    requires Linked(s) && PreviousValid(s) && Chained(s)
    ensures Linked(Step(apply, s, e)) && PreviousValid(Step(apply, s, e))
  {
    if e.Submit? {
      LinkedSubmit(apply, s, e.key, e.op);
    } else {
      StepAdvances(apply, s, e);
      LinkedAdvance(s, Step(apply, s, e));
    }
  }

  /** When a task may begin, every earlier task of its key has settled. */
  lemma BeginIsNext<Row, Op>(s: State<Row, Op>, j: nat, i: nat)
    requires Ordered(s) && Linked(s) && PreviousValid(s) && Enabled(s, Begin(j)) && i < j && Same(s, i, j)
    ensures s.tasks[i].phase == Settled
  {
    match s.tasks[j].previous { case None => case Some(p) => if i < p { assert Same(s, i, p); } }
  }

  lemma OrderedBegin<Row, Op>(apply: (Option<Row>, Op) -> Option<Row>, s: State<Row, Op>, j: nat)
    requires Ordered(s) && Linked(s) && PreviousValid(s) && Enabled(s, Begin(j))
    ensures Ordered(Step(apply, s, Begin(j)))
  {
    forall i | 0 <= i < j && Same(s, i, j) ensures s.tasks[i].phase == Settled { BeginIsNext(s, j, i); }
  }

  lemma OrderedStep<Row, Op>(apply: (Option<Row>, Op) -> Option<Row>, s: State<Row, Op>, e: Event<Op>)
    requires Ordered(s) && Linked(s) && PreviousValid(s)
    ensures Ordered(Step(apply, s, e))
  {
    if e.Begin? && Enabled(s, e) {
      OrderedBegin(apply, s, e.task);
    } else {
      var t := Step(apply, s, e);
      forall i, j | 0 <= i < j < |t.tasks| && Same(t, i, j) && t.tasks[j].phase != Waiting
        ensures t.tasks[i].phase == Settled {
        assert Same(s, i, j);
      }
    }
  }

  lemma ChainedCleanup<Row, Op>(apply: (Option<Row>, Op) -> Option<Row>, s: State<Row, Op>, i: nat)
    requires Ordered(s) && Chained(s) && Enabled(s, Cleanup(i))
    ensures Chained(Step(apply, s, Cleanup(i)))
  {
    forall j | 0 <= j < i && Same(s, j, i) ensures s.tasks[j].phase == Settled {}
  }

  lemma ChainedSubmit<Row, Op>(apply: (Option<Row>, Op) -> Option<Row>, s: State<Row, Op>, k: Key, op: Op)
    requires Chained(s)
    ensures Chained(Step(apply, s, Submit(k, op)))
  {
  }

  /** A step that leaves the chains alone, settles nothing and moves no key. */
  lemma ChainedOther<Row, Op>(s: State<Row, Op>, t: State<Row, Op>)
    requires Chained(s) && t.chains == s.chains && |t.tasks| == |s.tasks|
    requires forall i :: 0 <= i < |s.tasks| ==>
      t.tasks[i].key == s.tasks[i].key && (t.tasks[i].phase == Settled <==> s.tasks[i].phase == Settled)
    ensures Chained(t)
  {
  }

  lemma ChainedStep<Row, Op>(apply: (Option<Row>, Op) -> Option<Row>, s: State<Row, Op>, e: Event<Op>)
    requires Ordered(s) && Chained(s)
    ensures Chained(Step(apply, s, e))
  {
    if e.Submit? {
      ChainedSubmit(apply, s, e.key, e.op);
    } else if e.Cleanup? && Enabled(s, e) {
      ChainedCleanup(apply, s, e.task);
    } else {
      ChainedOther(s, Step(apply, s, e));
    }
  }

  /** Tasks of other keys, and tasks that had no effect, do not show. */
  lemma {:induction false} ReplayAgrees<Row, Op>(apply: (Option<Row>, Op) -> Option<Row>, start: Option<Row>,
      a: seq<Task<Row, Op>>, b: seq<Task<Row, Op>>, k: Key)
    requires |a| == |b|
    requires forall i :: 0 <= i < |a| ==>
        a[i].key == b[i].key && a[i].op == b[i].op && (a[i].key == k ==> a[i].applied == b[i].applied)
    ensures Replay(apply, start, a, k) == Replay(apply, start, b, k)
    decreases |a|
  {
    if a != [] { ReplayAgrees(apply, start, a[..|a| - 1], b[..|b| - 1], k); }
  }

  /** Marking task `i` applied, with no applied task of its key after it, appends its effect. */
  lemma {:induction false} ReplayMark<Row, Op>(apply: (Option<Row>, Op) -> Option<Row>, start: Option<Row>,
      a: seq<Task<Row, Op>>, b: seq<Task<Row, Op>>, i: nat)
    requires |a| == |b| && i < |a| && !a[i].applied
    requires b == a[i := b[i]] && b[i].key == a[i].key && b[i].op == a[i].op && b[i].applied
    requires forall j :: i < j < |a| && a[j].key == a[i].key ==> !a[j].applied
    ensures Replay(apply, start, b, a[i].key) == After(apply, Replay(apply, start, a, a[i].key), a[i].op)
    decreases |a|
  {
    var n := |a| - 1;
    if i == n {
      assert b[..n] == a[..n];
    } else {
      assert b[..n] == a[..n][i := b[i]];
      ReplayMark(apply, start, a[..n], b[..n], i);
    }
  }

  lemma ConsistentWrite<Row, Op>(apply: (Option<Row>, Op) -> Option<Row>, start: map<Key, Row>, s: State<Row, Op>,
      i: nat)
    requires Ordered(s) && Consistent(apply, start, s) && Enabled(s, Write(i, true))
    ensures Consistent(apply, start, Step(apply, s, Write(i, true)))
  {
    var t := Step(apply, s, Write(i, true));
    forall j | 0 <= j < |s.tasks| && j != i && Same(s, i, j) ensures s.tasks[j].phase in {Settled, Waiting} {
      if j < i { assert Same(s, j, i); }
    }
    forall k ensures Lookup(t.rows, k) == Replay(apply, Lookup(start, k), t.tasks, k) {
      if k == s.tasks[i].key { ReplayMark(apply, Lookup(start, k), s.tasks, t.tasks, i); }
      else { ReplayAgrees(apply, Lookup(start, k), s.tasks, t.tasks, k); }
    }
  }

  lemma ConsistentSubmit<Row, Op>(apply: (Option<Row>, Op) -> Option<Row>, start: map<Key, Row>, s: State<Row, Op>,
      key: Key, op: Op)
    requires Consistent(apply, start, s)
    ensures Consistent(apply, start, Step(apply, s, Submit(key, op)))
  {
    var t := Step(apply, s, Submit(key, op));
    forall k ensures Replay(apply, Lookup(start, k), t.tasks, k) == Replay(apply, Lookup(start, k), s.tasks, k) {
      assert t.tasks[..|s.tasks|] == s.tasks;
    }
  }

  lemma ConsistentStep<Row, Op>(apply: (Option<Row>, Op) -> Option<Row>, start: map<Key, Row>, s: State<Row, Op>,
      e: Event<Op>)
    requires Ordered(s) && Consistent(apply, start, s)
    ensures Consistent(apply, start, Step(apply, s, e))
  {
    if !Enabled(s, e) { return; }
    match e
    case Submit(key, op) => ConsistentSubmit(apply, start, s, key, op);
    case Write(i, applied) =>
      if applied { ConsistentWrite(apply, start, s, i); } else { ConsistentOther(apply, start, s, e); }
    case _ => ConsistentOther(apply, start, s, e);
  }

  lemma ConsistentOther<Row, Op>(apply: (Option<Row>, Op) -> Option<Row>, start: map<Key, Row>, s: State<Row, Op>,
      e: Event<Op>)
    requires Ordered(s) && Consistent(apply, start, s) && Enabled(s, e) && !e.Submit? && !(e.Write? && e.applied)
    ensures Consistent(apply, start, Step(apply, s, e))
  {
    var t := Step(apply, s, e);
    forall k ensures Replay(apply, Lookup(start, k), t.tasks, k) == Replay(apply, Lookup(start, k), s.tasks, k) {
      ReplayAgrees(apply, Lookup(start, k), s.tasks, t.tasks, k);
    }
  }

  lemma StepKeeps<Row, Op>(apply: (Option<Row>, Op) -> Option<Row>, start: map<Key, Row>, s: State<Row, Op>,
      e: Event<Op>)
    requires Inv(apply, start, s)
    ensures Inv(apply, start, Step(apply, s, e))
  {
    OrderedStep(apply, s, e);
    LinkedStep(apply, s, e);
    ChainedStep(apply, s, e);
    ConsistentStep(apply, start, s, e);
  }

  // ---- whole runs ----

  function Run<Row, Op>(apply: (Option<Row>, Op) -> Option<Row>, s: State<Row, Op>, es: seq<Event<Op>>): State<Row, Op>
    decreases |es|
  {
    if es == [] then s else Run(apply, Step(apply, s, es[0]), es[1..])
  }

  function Idle<Row, Op>(rows: map<Key, Row>): State<Row, Op> {
    State([], map[], rows)
  }

  lemma {:induction false} RunKeeps<Row, Op>(apply: (Option<Row>, Op) -> Option<Row>, start: map<Key, Row>,
      s: State<Row, Op>, es: seq<Event<Op>>)
    requires Inv(apply, start, s)
    ensures Inv(apply, start, Run(apply, s, es))
    decreases |es|
  {
    if es != [] {
      StepKeeps(apply, start, s, es[0]);
      RunKeeps(apply, start, Step(apply, s, es[0]), es[1..]);
    }
  }

  /** Tasks of one key run one at a time and in submission order. */
  lemma OneAtATime<Row, Op>(apply: (Option<Row>, Op) -> Option<Row>, start: map<Key, Row>, es: seq<Event<Op>>, i: nat,
      j: nat)
    requires var s := Run(apply, Idle(start), es); i < j < |s.tasks| && Same(s, i, j) && s.tasks[j].phase != Waiting
    ensures Run(apply, Idle(start), es).tasks[i].phase == Settled
  {
    RunKeeps(apply, start, Idle(start), es);
  }

  // ---- what the events of a run say ----

  /** One call of `serialize`. */
  datatype Request<Op> = Request(key: Key, op: Op)

  /** The calls of a run, in order. */
  function Submitted<Op>(es: seq<Event<Op>>): seq<Request<Op>>
    decreases |es|
  {
    if es == [] then [] else CallOf(es[0]) + Submitted(es[1..])
  }

  /** Which of them had their upsert take effect. */
  function Landed<Row, Op>(apply: (Option<Row>, Op) -> Option<Row>, s: State<Row, Op>, es: seq<Event<Op>>): set<nat>
    decreases |es|
  {
    if es == [] then {}
    else
      (if es[0].Write? && es[0].applied && Enabled(s, es[0]) then {es[0].task} else {})
      + Landed(apply, Step(apply, s, es[0]), es[1..])
  }

  /** The row of `k` when those calls, and no others, run one after the other. */
  function Effects<Row, Op>(apply: (Option<Row>, Op) -> Option<Row>, start: Option<Row>, calls: seq<Request<Op>>,
      landed: set<nat>, k: Key): Option<Row>
    decreases |calls|
  {
    if calls == [] then start
    else
      var n := |calls| - 1;
      var r := Effects(apply, start, calls[..n], landed, k);
      if calls[n].key == k && n in landed then After(apply, r, calls[n].op) else r
  }

  ghost predicate Made<Row, Op>(tasks: seq<Task<Row, Op>>, calls: seq<Request<Op>>) {
    |tasks| == |calls| && forall i :: 0 <= i < |tasks| ==> tasks[i].key == calls[i].key && tasks[i].op == calls[i].op
  }

  /** The call an event is, if it is one. */
  function CallOf<Op>(e: Event<Op>): seq<Request<Op>> {
    if e.Submit? then [Request(e.key, e.op)] else []
  }

  lemma StepMakes<Row, Op>(apply: (Option<Row>, Op) -> Option<Row>, s: State<Row, Op>, calls: seq<Request<Op>>,
      e: Event<Op>)
    requires Made(s.tasks, calls)
    ensures Made(Step(apply, s, e).tasks, calls + CallOf(e))
  {
  }

  /** The tasks are the calls, in order. */
  lemma {:induction false} TasksAreCalls<Row, Op>(apply: (Option<Row>, Op) -> Option<Row>, s: State<Row, Op>,
      calls: seq<Request<Op>>, es: seq<Event<Op>>)
    requires Made(s.tasks, calls)
    ensures Made(Run(apply, s, es).tasks, calls + Submitted(es))
    decreases |es|
  {
    if es == [] {
      assert calls + [] == calls;
    } else {
      StepMakes(apply, s, calls, es[0]);
      TasksAreCalls(apply, Step(apply, s, es[0]), calls + CallOf(es[0]), es[1..]);
      Regroup(calls, CallOf(es[0]), Submitted(es[1..]));
    }
  }

  lemma Regroup<T>(x: seq<T>, y: seq<T>, z: seq<T>)
    ensures x + y + z == x + (y + z)
  {
  }

  lemma StepApplies<Row, Op>(apply: (Option<Row>, Op) -> Option<Row>, s: State<Row, Op>, e: Event<Op>, i: nat)
    requires Ordered(s)
    ensures |s.tasks| <= |Step(apply, s, e).tasks|
    ensures i < |Step(apply, s, e).tasks| ==>
      (Step(apply, s, e).tasks[i].applied <==>
        (i < |s.tasks| && s.tasks[i].applied) || (e == Write(i, true) && Enabled(s, e)))
  {
  }

  /** A task counts as applied exactly when its upsert took effect. */
  lemma {:induction false} AppliedExactly<Row, Op>(apply: (Option<Row>, Op) -> Option<Row>, start: map<Key, Row>,
      s: State<Row, Op>, es: seq<Event<Op>>, i: nat)
    requires Inv(apply, start, s)
    ensures |s.tasks| <= |Run(apply, s, es).tasks|
    ensures i < |Run(apply, s, es).tasks| ==>
      (Run(apply, s, es).tasks[i].applied <==>
        (i < |s.tasks| && s.tasks[i].applied) || i in Landed(apply, s, es))
    decreases |es|
  {
    if es != [] {
      StepKeeps(apply, start, s, es[0]);
      StepApplies(apply, s, es[0], i);
      AppliedExactly(apply, start, Step(apply, s, es[0]), es[1..], i);
    }
  }

  lemma {:induction false} ReplayIsEffects<Row, Op>(apply: (Option<Row>, Op) -> Option<Row>, start: Option<Row>,
      tasks: seq<Task<Row, Op>>, calls: seq<Request<Op>>, landed: set<nat>, k: Key)
    requires Made(tasks, calls) && forall i: nat :: i < |tasks| ==> (tasks[i].applied <==> i in landed)
    ensures Replay(apply, start, tasks, k) == Effects(apply, start, calls, landed, k)
    decreases |tasks|
  {
    if tasks != [] {
      var n := |tasks| - 1;
      ReplayIsEffects(apply, start, tasks[..n], calls[..n], landed, k);
    }
  }

  /**
   * No lost update: whatever the interleaving, a row is what the calls whose upsert took effect would have made
   * of it one after the other, in the order they were made.
   */
  lemma NoLostUpdate<Row, Op>(apply: (Option<Row>, Op) -> Option<Row>, start: map<Key, Row>, es: seq<Event<Op>>, k: Key)
    ensures Lookup(Run(apply, Idle(start), es).rows, k) ==
              Effects(apply, Lookup(start, k), Submitted(es), Landed(apply, Idle(start), es), k)
  {
    var s := Run(apply, Idle(start), es);
    var landed := Landed(apply, Idle(start), es);
    RunKeeps(apply, start, Idle(start), es);
    TasksAreCalls(apply, Idle(start), [], es);
    assert [] + Submitted(es) == Submitted(es);
    forall i: nat | i < |s.tasks| ensures s.tasks[i].applied <==> i in landed {
      AppliedExactly(apply, start, Idle(start), es, i);
    }
    ReplayIsEffects(apply, Lookup(start, k), s.tasks, Submitted(es), landed, k);
  }

  /** Once every task of a key has settled, the chains map holds nothing for it. */
  lemma ChainsDrain<Row, Op>(apply: (Option<Row>, Op) -> Option<Row>, start: map<Key, Row>, es: seq<Event<Op>>, k: Key)
    requires var s := Run(apply, Idle(start), es);
      forall i :: 0 <= i < |s.tasks| && s.tasks[i].key == k ==> s.tasks[i].phase == Settled
    ensures k !in Run(apply, Idle(start), es).chains
  {
    RunKeeps(apply, start, Idle(start), es);
  }

  /** The event that moves a task on. */
  function NextEvent<Row, Op>(s: State<Row, Op>, i: nat): Event<Op>
    requires i < |s.tasks| && s.tasks[i].phase != Settled
  {
    match s.tasks[i].phase
    case Waiting => Begin(i)
    case Running => Read(i)
    case Holding => Write(i, true)
    case _ => Cleanup(i)
  }

  /** A failed task blocks nobody: while a key has an unsettled task, its first one can move. */
  lemma NeverBlocked<Row, Op>(apply: (Option<Row>, Op) -> Option<Row>, start: map<Key, Row>, es: seq<Event<Op>>, i: nat)
    requires i < |Run(apply, Idle(start), es).tasks| && Run(apply, Idle(start), es).tasks[i].phase != Settled
    requires var s := Run(apply, Idle(start), es);
      forall h :: 0 <= h < i && Same(s, h, i) ==> s.tasks[h].phase == Settled
    ensures var s := Run(apply, Idle(start), es); Enabled(s, NextEvent(s, i))
  {
    RunKeeps(apply, start, Idle(start), es);
  }

  /**
   * And it runs through: begun, read and written, the first task in line stores what it computes from the row as
   * it is, touches no other row, settles, and drops the chain if nobody has queued behind it.
   */
  lemma RunsThrough<Row, Op>(apply: (Option<Row>, Op) -> Option<Row>, start: map<Key, Row>, es: seq<Event<Op>>, i: nat,
      landed: bool)
    requires i < |Run(apply, Idle(start), es).tasks| && Run(apply, Idle(start), es).tasks[i].phase == Waiting
    requires var s := Run(apply, Idle(start), es);
      forall h :: 0 <= h < i && Same(s, h, i) ==> s.tasks[h].phase == Settled
    ensures var s := Run(apply, Idle(start), es);
      var k := s.tasks[i].key;
      var t := Step(apply, Step(apply, Step(apply, Step(apply, s, Begin(i)), Read(i)), Write(i, landed)), Cleanup(i));
      && |t.tasks| == |s.tasks| && t.tasks[i].phase == Settled
      && Lookup(t.rows, k) == (if landed then After(apply, Lookup(s.rows, k), s.tasks[i].op) else Lookup(s.rows, k))
      && (forall other :: other != k ==> Lookup(t.rows, other) == Lookup(s.rows, other))
      && t.chains == if k in s.chains && s.chains[k] == i then s.chains - {k} else s.chains
  {
    NeverBlocked(apply, start, es, i);
    var s := Run(apply, Idle(start), es);
    var s1 := Step(apply, s, Begin(i));
    var s2 := Step(apply, s1, Read(i));
    assert s1.tasks[i] == s.tasks[i].(phase := Running) && s1.rows == s.rows && s1.chains == s.chains;
    assert s2.tasks[i] == s1.tasks[i].(phase := Holding, snapshot := Lookup(s.rows, s.tasks[i].key));
  }

  // ---- the writer's chain map ----

  class SerialWriter<Row, Op> {
    const apply: (Option<Row>, Op) -> Option<Row>
    ghost const start: map<Key, Row>
    var tasks: seq<Task<Row, Op>>
    var chains: map<Key, nat>
    var rows: map<Key, Row>

    ghost function View(): State<Row, Op>
      reads this
    {
      State(tasks, chains, rows)
    }

    ghost predicate Valid()
      reads this
    {
      Inv(apply, start, View())
    }

    constructor (apply: (Option<Row>, Op) -> Option<Row>, rows: map<Key, Row>)
      ensures Valid() && View() == Idle(rows) && this.apply == apply && start == rows
    {
      this.apply, this.start := apply, rows;
      tasks, chains, this.rows := [], map[], rows;
    }

    /** Chain a task behind the key's current tail. */
    method Serialize(key: Key, op: Op)
      requires Valid()
      modifies this
      ensures View() == Step(apply, old(View()), Submit(key, op))
      ensures Valid()
    {
      StepKeeps(apply, start, View(), Submit(key, op));
      var previous := if key in chains then Some(chains[key]) else None;
      var tail := |tasks|;
      tasks := tasks + [Task(key, op, previous, Waiting, None, false)];
      chains := chains[key := tail];
    }

    method BeginTask(i: nat)
      requires Valid() && Enabled(View(), Begin(i))
      modifies this`tasks
      ensures View() == Step(apply, old(View()), Begin(i))
      ensures Valid()
    {
      StepKeeps(apply, start, View(), Begin(i));
      tasks := tasks[i := tasks[i].(phase := Running)];
    }

    method ReadRow(i: nat)
      requires Valid() && Enabled(View(), Read(i))
      modifies this`tasks
      ensures View() == Step(apply, old(View()), Read(i))
      ensures Valid()
    {
      StepKeeps(apply, start, View(), Read(i));
      var existing := if tasks[i].key in rows then Some(rows[tasks[i].key]) else None;
      tasks := tasks[i := tasks[i].(phase := Holding, snapshot := existing)];
    }

    method WriteRow(i: nat, applied: bool)
      requires Valid() && Enabled(View(), Write(i, applied))
      modifies this`tasks, this`rows
      ensures View() == Step(apply, old(View()), Write(i, applied))
      ensures Valid()
    {
      StepKeeps(apply, start, View(), Write(i, applied));
      var data := apply(tasks[i].snapshot, tasks[i].op);
      if applied && data.Some? { rows := rows[tasks[i].key := data.value]; }
      tasks := tasks[i := tasks[i].(phase := Ended, applied := applied)];
    }

    method AbortTask(i: nat)
      requires Valid() && Enabled(View(), Abort(i))
      modifies this`tasks
      ensures View() == Step(apply, old(View()), Abort(i))
      ensures Valid()
    {
      StepKeeps(apply, start, View(), Abort(i));
      tasks := tasks[i := tasks[i].(phase := Ended)];
    }

    method CleanupTask(i: nat)
      requires Valid() && Enabled(View(), Cleanup(i))
      modifies this`tasks, this`chains
      ensures View() == Step(apply, old(View()), Cleanup(i))
      ensures Valid()
    {
      StepKeeps(apply, start, View(), Cleanup(i));
      var key := tasks[i].key;
      tasks := tasks[i := tasks[i].(phase := Settled)];
      if key in chains && chains[key] == i { chains := chains - {key}; }
    }
  }
}
