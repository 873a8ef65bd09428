/**
 * The cheap change probe: the count of active tokens and their latest update time gate the full reload.
 * Every write stamps its row later than the latest stamp the last probe saw; deletions leave no stamp.
 */
module TokenProbe {
  import opened Common

  datatype Row = Row(content: string, active: bool, updatedAt: int)

  type Table = map<string, Row>

  function Active(db: Table): Table {
    map id | id in db && db[id].active :: db[id]
  }

  datatype Probe = Probe(count: int, updatedAt: int)

  /** The latest stamp of a table, 0 for an empty one. */
  ghost function Latest(rows: Table): (m: int)
    ensures forall id :: id in rows ==> rows[id].updatedAt <= m
    ensures if rows == map[] then m == 0 else exists id :: id in rows && rows[id].updatedAt == m
    decreases |rows|
  {
    if rows == map[] then 0
    else
      var id :| id in rows;
      var others := rows - {id};
      assert |others| < |rows| by { assert others.Keys == rows.Keys - {id}; }
      assert forall x :: x in rows ==> x == id || x in others;
      if others == map[] || rows[id].updatedAt > Latest(others) then rows[id].updatedAt else Latest(others)
  }

  ghost function ProbeOf(db: Table): Probe {
    Probe(|Active(db)|, Latest(Active(db)))
  }

  /** `probed` is the active set the last probe saw, `held` the one the sessions were built from. */
  datatype State = State(db: Table, lastProbe: Probe, probed: Option<Table>, held: Option<Table>, loading: bool)

  datatype Event = Put(id: string, row: Row) | Delete(id: string) | Tick | Load(ok: bool)

  ghost predicate Enabled(s: State, e: Event) {
    match e
    case Put(_, row) => s.probed.Some? ==> row.updatedAt > s.lastProbe.updatedAt
    case Delete(_) => true
    case Tick => !s.loading
    case Load(_) => s.loading
  }

  ghost predicate Skips(s: State) {
    ProbeOf(s.db) == s.lastProbe
  }

  ghost function Step(s: State, e: Event): State {
    if !Enabled(s, e) then s
    else match e
      case Put(id, row) => s.(db := s.db[id := row])
      case Delete(id) => s.(db := s.db - {id})
      case Tick => if Skips(s) then s else s.(lastProbe := ProbeOf(s.db), probed := Some(Active(s.db)), loading := true)
      case Load(ok) => s.(loading := false, held := if ok then Some(Active(s.db)) else s.held)
  }

  ghost function Run(s: State, es: seq<Event>): State
    decreases |es|
  {
    if es == [] then s else Run(Step(s, es[0]), es[1..])
  }

  /** Before the first tick: the start-up load, and a probe no table has. */
  function Start(db: Table): State {
    State(db, Probe(-1, 0), None, Some(Active(db)), false)
  }

  /** An active row the last probe did not see carries a later stamp. */
  ghost predicate Inv(s: State) {
    match s.probed
    case None => s.lastProbe == Probe(-1, 0)
    case Some(seen) =>
      && s.lastProbe == Probe(|seen|, Latest(seen))
      && forall id :: id in s.db && s.db[id].active ==>
           (id in seen && seen[id] == s.db[id]) || s.db[id].updatedAt > s.lastProbe.updatedAt
  }

  lemma StepKeeps(s: State, e: Event)
    requires Inv(s)
    ensures Inv(Step(s, e))
  {
  }

  lemma {:induction false} RunKeeps(s: State, es: seq<Event>)
    requires Inv(s)
    ensures Inv(Run(s, es))
    decreases |es|
  {
    if es != [] {
      StepKeeps(s, es[0]);
      RunKeeps(Step(s, es[0]), es[1..]);
    }
  }

  /** An equal probe means an unchanged active set. */
  lemma SkipMeansUnchanged(s: State)
    requires Inv(s) && Skips(s)
    ensures s.probed == Some(Active(s.db))
  {
    var now := Active(s.db);
    match s.probed
    case None =>
    case Some(seen) =>
      forall id | id in now ensures id in seen && seen[id] == now[id] {
        assert now[id].updatedAt <= Latest(now);
      }
      SameSize(now, seen);
  }

  lemma SameSize(a: Table, b: Table)
    requires |a| == |b| && forall id :: id in a ==> id in b && b[id] == a[id]
    ensures a == b
  {
    assert a.Keys <= b.Keys;
    if a.Keys != b.Keys {
      StrictSubset(a.Keys, b.Keys);
    }
  }

  lemma StrictSubset(a: set<string>, b: set<string>)
    requires a < b
    ensures |a| < |b|
  {
    var x :| x in b && x !in a;
    assert b == (b - a) + a && x in b - a;
    assert |b| == |b - a| + |a|;
  }

  /** A tick whose probe differs from the last one, so that a reload follows. */
  ghost predicate Reloads(s: State, e: Event) {
    e.Tick? && !s.loading && !Skips(s)
  }

  /**
   * Whether the last reload was in time: it succeeded, and found the active set as its tick had; or it failed
   * or is pending, and at its tick the sessions already held the active set.
   */
  ghost predicate InTime(s: State, es: seq<Event>, soFar: bool)
    decreases |es|
  {
    if es == [] then soFar
    else
      var e := es[0];
      var verdict :=
        if Reloads(s, e) then s.held == Some(Active(s.db))
        else if e == Load(true) && s.loading then s.probed == Some(Active(s.db))
        else soFar;
      InTime(Step(s, e), es[1..], verdict)
  }

  lemma {:induction false} InTimeMeansHeld(s: State, es: seq<Event>, soFar: bool)
    requires s.probed.Some? ==> (soFar <==> s.held == s.probed)
    requires s.loading ==> s.probed.Some?
    ensures var t := Run(s, es); t.probed.Some? ==> (InTime(s, es, soFar) <==> t.held == t.probed)
    decreases |es|
  {
    if es != [] {
      var e := es[0];
      var verdict :=
        if Reloads(s, e) then s.held == Some(Active(s.db))
        else if e == Load(true) && s.loading then s.probed == Some(Active(s.db))
        else soFar;
      InTimeMeansHeld(Step(s, e), es[1..], verdict);
    }
  }

  /**
   * In every run a tick that skips the reload leaves the sessions up to date if and only if the last reload
   * was in time: rows that moved between a probe and its load, and a load that failed, stay unnoticed.
   */
  lemma SkipHidesNothingIff(db: Table, es: seq<Event>)
    requires Skips(Run(Start(db), es))
    ensures var s := Run(Start(db), es); s.held == Some(Active(s.db)) <==> InTime(Start(db), es, true)
  {
    RunKeeps(Start(db), es);
    SkipMeansUnchanged(Run(Start(db), es));
    InTimeMeansHeld(Start(db), es, true);
  }

  /** Every load succeeds and reads what its probe saw. */
  ghost predicate Clean(s: State, es: seq<Event>)
    decreases |es|
  {
    es == [] ||
    ((es[0].Load? && s.loading ==> es[0].ok && s.probed == Some(Active(s.db))) && Clean(Step(s, es[0]), es[1..]))
  }

  lemma {:induction false} CleanRuns(s: State, es: seq<Event>)
    requires Clean(s, es) && (s.probed.Some? && !s.loading ==> s.held == s.probed)
    ensures var t := Run(s, es); t.probed.Some? && !t.loading ==> t.held == t.probed
    decreases |es|
  {
    if es != [] { CleanRuns(Step(s, es[0]), es[1..]); }
  }

  /** So in runs of clean loads a skipped reload never hides a change. */
  lemma SkipIsSound(db: Table, es: seq<Event>)
    requires Clean(Start(db), es)
    requires Skips(Run(Start(db), es)) && !Run(Start(db), es).loading
    ensures var s := Run(Start(db), es); s.held == Some(Active(s.db))
  {
    RunKeeps(Start(db), es);
    CleanRuns(Start(db), es);
    SkipMeansUnchanged(Run(Start(db), es));
  }

  // ---- two ways a skip does hide a change ----

  const ROW_A: Row := Row("a", true, 1)
  const ROW_B: Row := Row("b", true, 2)
  const DEAD_B: Row := Row("b", false, 3)

  lemma OneRow()
    ensures Active(map["A" := ROW_A]) == map["A" := ROW_A] && ProbeOf(map["A" := ROW_A]) == Probe(1, 1)
  {
    var rows := map["A" := ROW_A];
    assert Active(rows) == rows;
    assert rows.Keys == {"A"};
    assert Latest(rows) == 1 by {
      var id :| id in rows && rows[id].updatedAt == Latest(rows);
    }
  }

  lemma RunFour(s: State, a: Event, b: Event, c: Event, d: Event)
    ensures Run(s, [a, b, c, d]) == Step(Step(Step(Step(s, a), b), c), d)
  {
    RunCons(s, a, [b, c, d]);
    RunCons(Step(s, a), b, [c, d]);
    RunCons(Step(Step(s, a), b), c, [d]);
    RunCons(Step(Step(Step(s, a), b), c), d, []);
    assert [a] + [b, c, d] == [a, b, c, d] && [b] + [c, d] == [b, c, d] && [c] + [d] == [c, d] && [d] + [] == [d];
  }

  lemma RunCons(s: State, e: Event, es: seq<Event>)
    ensures Run(s, [e] + es) == Run(Step(s, e), es)
  {
    assert ([e] + es)[1..] == es;
  }

  /** The first tick of a run that starts with row A. */
  lemma FirstTick()
    ensures var rows := map["A" := ROW_A];
      Step(Start(rows), Tick) == State(rows, Probe(1, 1), Some(rows), Some(rows), true)
  {
    OneRow();
  }

  /**
   * A row added between the probe and the load, and deactivated after it, is served for as long as nothing
   * else changes: the next probe matches the last one.
   */
  lemma LateRowIsKept()
    ensures var s := Run(Start(map["A" := ROW_A]), [Tick, Put("B", ROW_B), Load(true), Put("B", DEAD_B)]);
      Inv(s) && !s.loading && Skips(s) && s.held.Some? && "B" in s.held.value && "B" !in Active(s.db)
  {
    var rows := map["A" := ROW_A];
    var es := [Tick, Put("B", ROW_B), Load(true), Put("B", DEAD_B)];
    OneRow();
    FirstTick();
    RunKeeps(Start(rows), es);
    var s1 := Step(Start(rows), Tick);
    var s2 := Step(s1, es[1]);
    var s3 := Step(s2, es[2]);
    var s4 := Step(s3, es[3]);
    RunFour(Start(rows), es[0], es[1], es[2], es[3]);
    assert Active(s4.db) == rows;
  }

  /** No row is written or deleted. */
  predicate Quiet(es: seq<Event>) {
    forall e :: e in es ==> !e.Put? && !e.Delete?
  }

  lemma {:induction false} SkipsForever(s: State, es: seq<Event>)
    requires Skips(s) && !s.loading && Quiet(es)
    ensures Run(s, es) == s
    decreases |es|
  {
    if es != [] {
      assert es[0] in es;
      SkipsForever(s, es[1..]);
    }
  }

  /** A failed reload is not tried again, through any number of ticks, until a row is written or deleted. */
  lemma FailedLoadIsNotRetried(db: Table, es: seq<Event>, later: seq<Event>)
    requires var s := Run(Start(db), es); !s.loading && !Skips(s)
    requires Quiet(later)
    ensures var t := Step(Step(Run(Start(db), es), Tick), Load(false));
      Skips(t) && Run(t, later) == t && t.held == Run(Start(db), es).held
  {
    SkipsForever(Step(Step(Run(Start(db), es), Tick), Load(false)), later);
  }

  class Reconciler {
    var lastProbe: Probe
    var loading: bool
    var held: Option<Table>
    ghost var db: Table
    ghost var probed: Option<Table>

    ghost function View(): State
      reads this
    {
      State(db, lastProbe, probed, held, loading)
    }

    ghost predicate Valid()
      reads this
    {
      Inv(View())
    }

    constructor (active: Table, ghost db: Table)
      requires active == Active(db)
      ensures Valid() && View() == Start(db)
    {
      lastProbe, loading, held := Probe(-1, 0), false, Some(active);
      this.db, probed := db, None;
    }

    /** The aggregate has been answered; tells whether a reload follows. */
    method Probed(count: int, updatedAt: int) returns (reload: bool)
      requires Valid() && !loading && Probe(count, updatedAt) == ProbeOf(db)
      modifies this`lastProbe, this`probed, this`loading
      ensures View() == Step(old(View()), Tick)
      ensures reload == loading
      ensures !reload ==> probed == Some(Active(db))
      ensures Valid()
    {
      StepKeeps(View(), Tick);
      reload := !(count == lastProbe.count && updatedAt == lastProbe.updatedAt);
      if reload {
        lastProbe, loading := Probe(count, updatedAt), true;
        probed := Some(Active(db));
      } else {
        SkipMeansUnchanged(View());
      }
    }

    /** The reload has been answered, with nothing if it failed. */
    method Reloaded(rows: Option<Table>)
      requires Valid() && loading && (rows.Some? ==> rows.value == Active(db))
      modifies this`loading, this`held
      ensures View() == Step(old(View()), Load(rows.Some?))
      ensures Valid()
    {
      StepKeeps(View(), Load(rows.Some?));
      loading := false;
      if rows.Some? { held := rows; }
    }
  }
}
