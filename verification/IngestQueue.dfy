/**
 * The candle-ingest queue: job rows claimed by one worker, run in small batches, settled, abandoned by
 * crashes and failed calls, and reclaimed. Every await is a point where time passes or the process dies.
 */
module IngestQueue {
  import opened Common
  import opened CandleFold
  import opened IngestSpan

  const JOB_CONCURRENCY: nat := 4
  const MAX_JOB_ATTEMPTS: int := 3
  const STUCK_RUNNING_RECLAIM_MS: int := 10 * 60_000

  datatype Status = Pending | Running | Done | Failed

  datatype Job = Job(status: Status, attempts: int, updatedAt: int, createdAt: int)

  datatype Verdict = Return | Complete | Fail(terminal: bool)

  datatype Stage = Ingesting | Writing(candles: seq<Candle>) | Settling(verdict: Verdict) | Finished

  /** A claimed job, with the attempt number its run reads. */
  datatype Claim = Claim(key: JobKey, attempts: int, stage: Stage)

  datatype Drain = Idle | Claiming(seen: set<JobKey>, batch: seq<Claim>) | Working(seen: set<JobKey>, batch: seq<Claim>)

  /** What happened to a job's claims: runs that ended in a counted failure, and claims whose run never settled. */
  datatype Tally = Tally(failures: nat, abandoned: nat)

  datatype State = State(
    now: int, jobs: map<JobKey, Job>, chunks: map<JobKey, seq<Candle>>, drain: Drain, tally: map<JobKey, Tally>)

  datatype Config = Config(archive: Archive, folders: Instruments)

  datatype Event =
    | Wait(until: int)
    | Enqueue(key: JobKey)
    | StartPass
    | ClaimWon(key: JobKey)
    | ClaimNone
    | ClaimFailed(taken: Option<JobKey>)
    | Ingested(i: nat, timing: Timing)
    | Stored(i: nat, ok: bool, landed: bool)
    | Settled(i: nat, landed: bool)
    | Crash

  predicate Runnable(s: State, k: JobKey) {
    k in s.jobs && (s.jobs[k].status == Pending
                    || (s.jobs[k].status == Running && s.jobs[k].updatedAt < s.now - STUCK_RUNNING_RECLAIM_MS))
  }

  /** The oldest runnable job this pass has not claimed yet. */
  predicate Candidate(s: State, k: JobKey) {
    && s.drain.Claiming? && Runnable(s, k) && k !in s.drain.seen
    && forall j :: j in s.jobs && Runnable(s, j) && j !in s.drain.seen ==> s.jobs[k].createdAt <= s.jobs[j].createdAt
  }

  predicate AtStage(s: State, i: nat) {
    s.drain.Working? && i < |s.drain.batch|
  }

  predicate Enabled(s: State, e: Event) {
    match e
    case Wait(t) => t >= s.now
    case Enqueue(k) => k !in s.jobs
    case StartPass => s.drain.Idle?
    case ClaimWon(k) => Candidate(s, k)
    case ClaimNone => s.drain.Claiming?
    case ClaimFailed(k) => s.drain.Claiming? && (k.Some? ==> Candidate(s, k.value))
    case Ingested(i, t) => AtStage(s, i) && s.drain.batch[i].stage.Ingesting? && Ordered(s.drain.batch[i].key, t)
    case Stored(i, ok, landed) => AtStage(s, i) && s.drain.batch[i].stage.Writing? && (ok ==> landed)
    case Settled(i, _) => AtStage(s, i) && s.drain.batch[i].stage.Settling?
    case Crash => true
  }

  /** The claim's update: a stuck RUNNING job's earlier claim was abandoned. */
  function Claimed(j: Job, now: int): Job {
    j.(status := Running, attempts := j.attempts + 1, updatedAt := now)
  }

  function ClaimedTally(j: Job, t: Tally): Tally {
    if j.status == Running then t.(abandoned := t.abandoned + 1) else t
  }

  function SettledJob(j: Job, v: Verdict, now: int): Job {
    match v
    case Return => j.(status := Pending, attempts := j.attempts - 1, updatedAt := now)
    case Complete => j.(status := Done, updatedAt := now)
    case Fail(terminal) => j.(status := if terminal then Failed else Pending, updatedAt := now)
  }

  function SettledTally(t: Tally, v: Verdict): Tally {
    if v.Fail? then t.(failures := t.failures + 1) else t
  }

  /** What the run does next after its ingest. */
  function AfterIngest(o: Outcome, attempts: int): Stage {
    match o
    case Chunk(candles) => Writing(candles)
    case NotPublished => Settling(Return)
    case Unsupported => Settling(Fail(true))
    case Threw => Settling(Fail(attempts >= MAX_JOB_ATTEMPTS))
  }

  predicate AllFinished(batch: seq<Claim>) {
    forall i :: 0 <= i < |batch| ==> batch[i].stage.Finished?
  }

  /** A claimed batch runs once it is full or no further job was found; an empty one ends the pass. */
  function AfterClaims(seen: set<JobKey>, batch: seq<Claim>): Drain {
    if batch == [] then Idle else Working(seen, batch)
  }

  function AfterRun(seen: set<JobKey>, batch: seq<Claim>): Drain {
    if AllFinished(batch) then Claiming(seen, []) else Working(seen, batch)
  }

  function Take(s: State, k: JobKey): State
    requires k in s.jobs && k in s.tally
  {
    s.(jobs := s.jobs[k := Claimed(s.jobs[k], s.now)], tally := s.tally[k := ClaimedTally(s.jobs[k], s.tally[k])])
  }

  function Advance(s: State, i: nat, stage: Stage): State
    requires AtStage(s, i)
  {
    s.(drain := AfterRun(s.drain.seen, s.drain.batch[i := s.drain.batch[i].(stage := stage)]))
  }

  function Settle(s: State, k: JobKey, v: Verdict): State
    requires k in s.jobs && k in s.tally
  {
    s.(jobs := s.jobs[k := SettledJob(s.jobs[k], v, s.now)], tally := s.tally[k := SettledTally(s.tally[k], v)])
  }

  predicate RowsKnown(s: State, e: Event) {
    match e
    case ClaimWon(k) => k in s.jobs && k in s.tally
    case ClaimFailed(k) => k.None? || (k.value in s.jobs && k.value in s.tally)
    case Settled(i, _) => AtStage(s, i) && s.drain.batch[i].key in s.jobs && s.drain.batch[i].key in s.tally
    case _ => true
  }

  predicate RunEvent(e: Event) {
    e.Ingested? || e.Stored? || e.Settled?
  }

  /** Where a run's event takes it. */
  function NextStage(c: Config, s: State, e: Event): Stage
    requires RunEvent(e) && Enabled(s, e)
  {
    var claim := s.drain.batch[e.i];
    match e
    case Ingested(_, t) => AfterIngest(Ingest(c.archive, c.folders, claim.key, t), claim.attempts)
    case Stored(_, ok, _) => Settling(if ok then Complete else Fail(claim.attempts >= MAX_JOB_ATTEMPTS))
    case Settled(_, _) => Finished
  }

  /** What a run's event does to the tables. */
  function Effect(s: State, e: Event): State
    requires RunEvent(e) && Enabled(s, e) && RowsKnown(s, e)
  {
    var claim := s.drain.batch[e.i];
    match e
    case Ingested(_, _) => s
    case Stored(_, _, landed) => if landed then s.(chunks := s.chunks[claim.key := claim.stage.candles]) else s
    case Settled(_, landed) => if landed then Settle(s, claim.key, claim.stage.verdict) else s
  }

  function Step(c: Config, s: State, e: Event): State {
    if !Enabled(s, e) || !RowsKnown(s, e) then s
    else match e
      case Wait(t) => s.(now := t)
      case Enqueue(k) => s.(jobs := s.jobs[k := Job(Pending, 0, s.now, s.now)], tally := s.tally[k := Tally(0, 0)])
      case StartPass => s.(drain := Claiming({}, []))
      case ClaimWon(k) =>
        var batch := s.drain.batch + [Claim(k, s.jobs[k].attempts + 1, Ingesting)];
        var seen := s.drain.seen + {k};
        Take(s, k).(drain := if |batch| >= JOB_CONCURRENCY then Working(seen, batch) else Claiming(seen, batch))
      case ClaimNone => s.(drain := AfterClaims(s.drain.seen, s.drain.batch))
      case ClaimFailed(k) => (if k.Some? then Take(s, k.value) else s).(drain := Idle)
      case Ingested(_, _) => Advance(Effect(s, e), e.i, NextStage(c, s, e))
      case Stored(_, _, _) => Advance(Effect(s, e), e.i, NextStage(c, s, e))
      case Settled(_, _) => Advance(Effect(s, e), e.i, NextStage(c, s, e))
      case Crash => s.(drain := Idle)
  }

  function Run(c: Config, s: State, es: seq<Event>): State
    decreases |es|
  {
    if es == [] then s else Run(c, Step(c, s, es[0]), es[1..])
  }

  function Empty(now: int): State {
    State(now, map[], map[], Idle, map[])
  }

  // ---- invariants ----

  /** The runs a drain has going; none while idle. */
  function Batch(s: State): seq<Claim> {
    if s.drain.Idle? then [] else s.drain.batch
  }

  /** A chunk is the expected one; only a minute job's may be an empty day instead, and under `strict` not even that. */
  predicate Right(c: Config, strict: bool, k: JobKey, candles: seq<Candle>) {
    && Known(c.folders, k)
    && (candles == Expected(c.archive, c.folders, k) || (!strict && k.resolution == "1m" && candles == []))
  }

  predicate ChunkOk(c: Config, strict: bool, s: State, k: JobKey) {
    && (k in s.chunks ==> Right(c, strict, k, s.chunks[k]))
    && (k in s.jobs && s.jobs[k].status == Done ==> k in s.chunks)
  }

  /** Every claim is a counted failure, an abandoned run, the run going on, or the one that succeeded. */
  predicate JobOk(c: Config, s: State, k: JobKey)
    requires k in s.jobs && k in s.tally
  {
    var j, t := s.jobs[k], s.tally[k];
    && j.attempts == t.failures + t.abandoned + (if j.status == Running || j.status == Done then 1 else 0)
    && t.failures < MAX_JOB_ATTEMPTS + (if j.status == Failed then 1 else 0)
    && (j.status == Failed ==> t.failures > 0 && (!Known(c.folders, k) || j.attempts >= MAX_JOB_ATTEMPTS))
  }

  predicate ClaimOk(c: Config, strict: bool, s: State, claim: Claim) {
    claim.stage.Finished? ||
    (&& claim.key in s.jobs && s.jobs[claim.key].status == Running && s.jobs[claim.key].attempts == claim.attempts
     && (claim.stage.Writing? ==> Right(c, strict, claim.key, claim.stage.candles))
     && (claim.stage == Settling(Complete) ==> claim.key in s.chunks)
     && (claim.stage.Settling? && claim.stage.verdict.Fail? ==>
           if claim.stage.verdict.terminal then !Known(c.folders, claim.key) || claim.attempts >= MAX_JOB_ATTEMPTS
           else claim.attempts < MAX_JOB_ATTEMPTS))
  }

  predicate DrainOk(d: Drain) {
    !d.Idle? ==>
      && |d.batch| <= JOB_CONCURRENCY && (d.Claiming? ==> |d.batch| < JOB_CONCURRENCY)
      && (d.Working? ==> !AllFinished(d.batch))
      && (forall i :: 0 <= i < |d.batch| ==> d.batch[i].key in d.seen && (d.Claiming? ==> d.batch[i].stage.Ingesting?))
      && (forall i, j :: 0 <= i < j < |d.batch| ==> d.batch[i].key != d.batch[j].key)
  }

  ghost predicate Inv(c: Config, strict: bool, s: State) {
    && s.tally.Keys == s.jobs.Keys && DrainOk(s.drain)
    && (forall k :: ChunkOk(c, strict, s, k))
    && (forall k :: k in s.jobs ==> JobOk(c, s, k))
    && (forall i :: 0 <= i < |Batch(s)| ==> ClaimOk(c, strict, s, Batch(s)[i]))
  }

  /** The file of a minute job does not appear between the answer to its fetch and its look at the clock. */
  predicate Steady(c: Config, s: State, e: Event) {
    e.Ingested? && Enabled(s, e) && Known(c.folders, s.drain.batch[e.i].key) ==>
      !Overtaken(c.archive, c.folders, s.drain.batch[e.i].key, e.timing)
  }

  predicate SteadyRun(c: Config, s: State, es: seq<Event>)
    decreases |es|
  {
    es == [] || (Steady(c, s, es[0]) && SteadyRun(c, Step(c, s, es[0]), es[1..]))
  }

  predicate EventOk(c: Config, strict: bool, s: State, e: Event) {
    strict ==> Steady(c, s, e)
  }

  lemma DrainStep(c: Config, strict: bool, s: State, e: Event)
    requires Inv(c, strict, s)
    ensures DrainOk(Step(c, s, e).drain)
  {
    if RunEvent(e) && Enabled(s, e) && RowsKnown(s, e) {
      AfterRunOk(s.drain, e.i, NextStage(c, s, e));
    } else if e.ClaimWon? && Enabled(s, e) && RowsKnown(s, e) {
      BatchGrows(s.drain, e.key, s.jobs[e.key].attempts + 1);
    } else if s.drain.Claiming? && s.drain.batch != [] {
      assert !s.drain.batch[0].stage.Finished?;
    }
  }

  lemma AfterRunOk(d: Drain, i: nat, stage: Stage)
    requires DrainOk(d) && d.Working? && i < |d.batch|
    ensures DrainOk(AfterRun(d.seen, d.batch[i := d.batch[i].(stage := stage)]))
  {
  }

  lemma BatchGrows(d: Drain, k: JobKey, attempts: int)
    requires DrainOk(d) && d.Claiming? && k !in d.seen
    ensures var batch := d.batch + [Claim(k, attempts, Ingesting)];
      DrainOk(if |batch| >= JOB_CONCURRENCY then Working(d.seen + {k}, batch) else Claiming(d.seen + {k}, batch))
  {
    var batch := d.batch + [Claim(k, attempts, Ingesting)];
    assert !batch[|d.batch|].stage.Finished?;
  }

  lemma TallyStep(c: Config, strict: bool, s: State, e: Event)
    requires Inv(c, strict, s)
    ensures Step(c, s, e).tally.Keys == Step(c, s, e).jobs.Keys
  {
  }

  lemma IngestRight(c: Config, strict: bool, k: JobKey, t: Timing)
    requires Final(c.archive) && Ordered(k, t)
    requires strict && Known(c.folders, k) ==> !Overtaken(c.archive, c.folders, k, t)
    ensures Ingest(c.archive, c.folders, k, t).Chunk? ==>
        Right(c, strict, k, Ingest(c.archive, c.folders, k, t).candles)
  {
    if Ingest(c.archive, c.folders, k, t).Chunk? { StoredIsExpected(c.archive, c.folders, k, t); }
  }

  lemma JobStep(c: Config, strict: bool, s: State, e: Event, k: JobKey)
    requires Inv(c, strict, s) && k in Step(c, s, e).jobs
    ensures k in Step(c, s, e).tally && JobOk(c, Step(c, s, e), k)
  {
    if RunEvent(e) { RunJobStep(c, strict, s, e, k); } else { assert k in s.jobs ==> JobOk(c, s, k); }
  }

  lemma RunJobStep(c: Config, strict: bool, s: State, e: Event, k: JobKey)
    requires Inv(c, strict, s) && RunEvent(e) && k in Step(c, s, e).jobs
    ensures k in Step(c, s, e).tally && JobOk(c, Step(c, s, e), k)
  {
    if Enabled(s, e) && RowsKnown(s, e) {
      var claim := Batch(s)[e.i];
      assert ClaimOk(c, strict, s, claim) && JobOk(c, s, k);
      if e.Settled? { SettleJob(c, s, claim.key, claim.stage.verdict); }
      var t := Effect(s, e);
      assert Step(c, s, e).jobs == t.jobs && Step(c, s, e).tally == t.tally;
    } else {
      assert JobOk(c, s, k);
    }
  }

  lemma SettleJob(c: Config, s: State, k: JobKey, v: Verdict)
    requires k in s.jobs && k in s.tally && JobOk(c, s, k) && s.jobs[k].status == Running
    requires v.Fail? ==> if v.terminal then !Known(c.folders, k) || s.jobs[k].attempts >= MAX_JOB_ATTEMPTS
                         else s.jobs[k].attempts < MAX_JOB_ATTEMPTS
    ensures JobOk(c, Settle(s, k, v), k)
  {
  }

  lemma ChunkStep(c: Config, strict: bool, s: State, e: Event, k: JobKey)
    requires Inv(c, strict, s)
    ensures ChunkOk(c, strict, Step(c, s, e), k)
  {
    assert ChunkOk(c, strict, s, k);
    if RunEvent(e) && Enabled(s, e) { ChunkRunStep(c, strict, s, e, k); }
  }

  lemma ChunkRunStep(c: Config, strict: bool, s: State, e: Event, k: JobKey)
    requires Inv(c, strict, s) && RunEvent(e) && Enabled(s, e)
    ensures ChunkOk(c, strict, Step(c, s, e), k)
  {
    assert ChunkOk(c, strict, s, k) && ClaimOk(c, strict, s, Batch(s)[e.i]);
  }

  lemma OtherClaimStep(c: Config, strict: bool, s: State, e: Event, i: nat)
    requires Inv(c, strict, s) && !RunEvent(e) && i < |Batch(Step(c, s, e))|
    ensures ClaimOk(c, strict, Step(c, s, e), Batch(Step(c, s, e))[i])
  {
    assert i < |Batch(s)| ==> ClaimOk(c, strict, s, Batch(s)[i]);
  }

  /** A run's event touches its own claim and its own row only. */
  lemma RunStepIs(c: Config, strict: bool, s: State, e: Event)
    requires Inv(c, strict, s) && RunEvent(e) && Enabled(s, e)
    ensures RowsKnown(s, e) && Step(c, s, e) == Advance(Effect(s, e), e.i, NextStage(c, s, e))
    ensures Effect(s, e).drain == s.drain && Effect(s, e).jobs.Keys == s.jobs.Keys
        && s.chunks.Keys <= Effect(s, e).chunks.Keys
    ensures forall k :: k in s.jobs && k != s.drain.batch[e.i].key ==> Effect(s, e).jobs[k] == s.jobs[k]
  {
    assert ClaimOk(c, strict, s, Batch(s)[e.i]);
  }

  lemma OtherRunOk(c: Config, strict: bool, s: State, e: Event, claim: Claim)
    requires Inv(c, strict, s) && RunEvent(e) && Enabled(s, e) && ClaimOk(c, strict, s, claim)
    requires claim.stage.Finished? || claim.key != s.drain.batch[e.i].key
    ensures ClaimOk(c, strict, Step(c, s, e), claim)
  {
    RunStepIs(c, strict, s, e);
  }

  lemma RunClaimStep(c: Config, strict: bool, s: State, e: Event, i: nat)
    requires Final(c.archive) && Inv(c, strict, s) && EventOk(c, strict, s, e) && RunEvent(e)
        && i < |Batch(Step(c, s, e))|
    ensures ClaimOk(c, strict, Step(c, s, e), Batch(Step(c, s, e))[i])
  {
    if Enabled(s, e) {
      RunStepIs(c, strict, s, e);
      assert ClaimOk(c, strict, s, Batch(s)[e.i]) && ClaimOk(c, strict, s, Batch(s)[i]);
      if i == e.i {
        NextStageOk(c, strict, s, e);
      } else {
        OtherRunOk(c, strict, s, e, Batch(s)[i]);
      }
    } else {
      assert ClaimOk(c, strict, s, Batch(s)[i]);
    }
  }

  lemma NextStageOk(c: Config, strict: bool, s: State, e: Event)
    requires Final(c.archive) && Inv(c, strict, s) && EventOk(c, strict, s, e) && RunEvent(e) && Enabled(s, e)
    requires RowsKnown(s, e) && ClaimOk(c, strict, s, s.drain.batch[e.i])
    ensures ClaimOk(c, strict, Effect(s, e), s.drain.batch[e.i].(stage := NextStage(c, s, e)))
  {
    if e.Ingested? { IngestRight(c, strict, s.drain.batch[e.i].key, e.timing); }
  }

  lemma StepKeeps(c: Config, strict: bool, s: State, e: Event)
    requires Final(c.archive) && Inv(c, strict, s) && EventOk(c, strict, s, e)
    ensures Inv(c, strict, Step(c, s, e))
  {
    var t := Step(c, s, e);
    DrainStep(c, strict, s, e);
    TallyStep(c, strict, s, e);
    forall k ensures ChunkOk(c, strict, t, k) { ChunkStep(c, strict, s, e, k); }
    forall k | k in t.jobs ensures JobOk(c, t, k) { JobStep(c, strict, s, e, k); }
    forall i | 0 <= i < |Batch(t)| ensures ClaimOk(c, strict, t, Batch(t)[i]) {
      if RunEvent(e) { RunClaimStep(c, strict, s, e, i); } else { OtherClaimStep(c, strict, s, e, i); }
    }
  }

  lemma {:induction false} RunKeeps(c: Config, strict: bool, s: State, es: seq<Event>)
    requires Final(c.archive) && Inv(c, strict, s) && (strict ==> SteadyRun(c, s, es))
    ensures Inv(c, strict, Run(c, s, es))
    decreases |es|
  {
    if es != [] {
      StepKeeps(c, strict, s, es[0]);
      RunKeeps(c, strict, Step(c, s, es[0]), es[1..]);
    }
  }

  lemma EmptyOk(c: Config, strict: bool, now: int)
    ensures Inv(c, strict, Empty(now))
  {
  }

  // ---- what every run keeps ----

  /**
   * With an archive that is final by each day's margin, a DONE job has the chunk that folds every published
   * day of its span, through any crashes, retries and reclaims; only a minute job whose file came between
   * its fetch and its look at the clock may have stored an empty day.
   */
  lemma DoneMeansWholeSpan(c: Config, now: int, es: seq<Event>, k: JobKey)
    requires Final(c.archive) && k in Run(c, Empty(now), es).jobs && Run(c, Empty(now), es).jobs[k].status == Done
    ensures var s := Run(c, Empty(now), es);
      && k in s.chunks && Known(c.folders, k)
      && (s.chunks[k] == Expected(c.archive, c.folders, k) || (k.resolution == "1m" && s.chunks[k] == []))
      && (SteadyRun(c, Empty(now), es) ==> s.chunks[k] == Expected(c.archive, c.folders, k))
  {
    EmptyOk(c, false, now);
    RunKeeps(c, false, Empty(now), es);
    assert ChunkOk(c, false, Run(c, Empty(now), es), k);
    if SteadyRun(c, Empty(now), es) {
      EmptyOk(c, true, now);
      RunKeeps(c, true, Empty(now), es);
      assert ChunkOk(c, true, Run(c, Empty(now), es), k);
    }
  }

  /**
   * Attempts are conserved: counted failures, plus claims whose run never settled, plus one for the run
   * under way or the one that succeeded. Waiting for the archive costs nothing, and a job fails for good
   * only as unsupported or after its last attempt, with at most MAX_JOB_ATTEMPTS counted failures.
   */
  lemma AttemptsConserved(c: Config, now: int, es: seq<Event>, k: JobKey)
    requires Final(c.archive) && k in Run(c, Empty(now), es).jobs
    ensures var s := Run(c, Empty(now), es);
      && k in s.tally
      && s.jobs[k].attempts == s.tally[k].failures + s.tally[k].abandoned
           + (if s.jobs[k].status == Running || s.jobs[k].status == Done then 1 else 0)
      && s.tally[k].failures <= MAX_JOB_ATTEMPTS
      && (s.jobs[k].status == Failed ==> !Known(c.folders, k) || s.jobs[k].attempts >= MAX_JOB_ATTEMPTS)
  {
    EmptyOk(c, false, now);
    RunKeeps(c, false, Empty(now), es);
    assert JobOk(c, Run(c, Empty(now), es), k);
  }

  // ---- the ledger of a job, kept from the events alone ----

  /** What the run under way has come to. */
  datatype Fate = Open | Holds(candles: seq<Candle>) | Waits | Fails(final: bool) | Succeeds

  /** `touched` is when the row was last written, `chunk` what is stored for the job. */
  datatype Ledger = Ledger(
    status: Status, attempts: int, failures: nat, touched: int, chunk: Option<seq<Candle>>, fate: Fate)

  /** The event is an answer to a run of the job. */
  predicate Concerns(s: State, e: Event, k: JobKey) {
    RunEvent(e) && AtStage(s, e.i) && s.drain.batch[e.i].key == k
  }

  /** What the answer to an ingest means for the job. */
  function FateOf(c: Config, k: JobKey, t: Timing, attempts: int): Fate
    requires Ordered(k, t)
  {
    match Ingest(c.archive, c.folders, k, t)
    case Chunk(candles) => Holds(candles)
    case NotPublished => Waits
    case Unsupported => Fails(true)
    case Threw => Fails(attempts >= MAX_JOB_ATTEMPTS)
  }

  /** A settle that landed. A span that is not published yet gives the attempt back and counts as no failure. */
  function Entered(l: Ledger, now: int): Ledger {
    match l.fate
    case Waits => l.(status := Pending, attempts := l.attempts - 1, touched := now)
    case Fails(final) => l.(status := if final then Failed else Pending, failures := l.failures + 1, touched := now)
    case Succeeds => l.(status := Done, touched := now)
    case _ => l
  }

  function Entry(c: Config, s: State, l: Ledger, e: Event, k: JobKey): Ledger {
    if !Enabled(s, e) then l
    else if e == Enqueue(k) then Ledger(Pending, 0, 0, s.now, l.chunk, Open)
    else if e == ClaimWon(k) || e == ClaimFailed(Some(k)) then
      l.(status := Running, attempts := l.attempts + 1, touched := s.now, fate := Open)
    else if !Concerns(s, e, k) then l
    else match e
      case Ingested(_, t) => l.(fate := FateOf(c, k, t, l.attempts))
      case Stored(_, ok, landed) =>
        l.(fate := if ok then Succeeds else Fails(l.attempts >= MAX_JOB_ATTEMPTS),
           chunk := if landed && l.fate.Holds? then Some(l.fate.candles) else l.chunk)
      case Settled(_, landed) => if landed then Entered(l, s.now) else l
  }

  function Kept(c: Config, s: State, l: Ledger, es: seq<Event>, k: JobKey): Ledger
    decreases |es|
  {
    if es == [] then l else Kept(c, Step(c, s, es[0]), Entry(c, s, l, es[0], k), es[1..], k)
  }

  predicate FateFits(stage: Stage, fate: Fate) {
    match stage
    case Ingesting => fate == Open
    case Writing(candles) => fate == Holds(candles)
    case Settling(Return) => fate == Waits
    case Settling(Complete) => fate == Succeeds
    case Settling(Fail(final)) => fate == Fails(final)
    case Finished => true
  }

  predicate RowAgrees(s: State, l: Ledger, k: JobKey) {
    && l.chunk == (if k in s.chunks then Some(s.chunks[k]) else None)
    && (k in s.jobs ==>
          k in s.tally && s.jobs[k].status == l.status && s.jobs[k].attempts == l.attempts
          && s.jobs[k].updatedAt == l.touched && s.tally[k].failures == l.failures)
  }

  predicate RunAgrees(s: State, l: Ledger, k: JobKey) {
    forall i :: 0 <= i < |Batch(s)| && Batch(s)[i].key == k ==> FateFits(Batch(s)[i].stage, l.fate)
  }

  lemma EntryRow(c: Config, s: State, l: Ledger, e: Event, k: JobKey)
    requires Inv(c, false, s) && RowAgrees(s, l, k) && RunAgrees(s, l, k)
    ensures RowAgrees(Step(c, s, e), Entry(c, s, l, e, k), k)
  {
    if !RunEvent(e) {
      EntryOtherRow(c, s, l, e, k);
    } else if Enabled(s, e) {
      AnswersKnown(c, s, e);
      EntryRunRow(c, s, l, e, k);
    }
  }

  lemma AnswersKnown(c: Config, s: State, e: Event)
    requires Inv(c, false, s) && RunEvent(e) && Enabled(s, e)
    ensures RowsKnown(s, e)
  {
    assert Batch(s)[e.i] == s.drain.batch[e.i];
    assert ClaimOk(c, false, s, Batch(s)[e.i]);
  }

  lemma EntryOtherRow(c: Config, s: State, l: Ledger, e: Event, k: JobKey)
    requires Inv(c, false, s) && RowAgrees(s, l, k) && !RunEvent(e)
    ensures RowAgrees(Step(c, s, e), Entry(c, s, l, e, k), k)
  {
  }

  lemma EntryRunRow(c: Config, s: State, l: Ledger, e: Event, k: JobKey)
    requires Inv(c, false, s) && RowAgrees(s, l, k) && RunAgrees(s, l, k)
    requires RunEvent(e) && Enabled(s, e) && RowsKnown(s, e)
    ensures RowAgrees(Step(c, s, e), Entry(c, s, l, e, k), k)
  {
    assert Batch(s)[e.i] == s.drain.batch[e.i];
    EntryEffect(c, s, l, e, k);
    assert Step(c, s, e) == Advance(Effect(s, e), e.i, NextStage(c, s, e));
    SameRows(Step(c, s, e), Effect(s, e), Entry(c, s, l, e, k), k);
  }

  lemma EntryEffect(c: Config, s: State, l: Ledger, e: Event, k: JobKey)
    requires RowAgrees(s, l, k) && RunEvent(e) && Enabled(s, e) && RowsKnown(s, e)
    requires s.drain.batch[e.i].key == k ==> FateFits(s.drain.batch[e.i].stage, l.fate)
    ensures RowAgrees(Effect(s, e), Entry(c, s, l, e, k), k)
  {
    if e.Settled? && e.landed { EntrySettled(s, l, e.i, k); }
  }

  lemma SameRows(s: State, t: State, l: Ledger, k: JobKey)
    requires s.jobs == t.jobs && s.tally == t.tally && s.chunks == t.chunks
    ensures RowAgrees(s, l, k) <==> RowAgrees(t, l, k)
  {
  }

  /** The row a landed settle leaves is the ledger's. */
  lemma EntrySettled(s: State, l: Ledger, i: nat, k: JobKey)
    requires AtStage(s, i) && s.drain.batch[i].stage.Settling?
    requires s.drain.batch[i].key == k ==> FateFits(s.drain.batch[i].stage, l.fate)
    requires s.drain.batch[i].key in s.jobs && s.drain.batch[i].key in s.tally && RowAgrees(s, l, k)
    ensures var claim := s.drain.batch[i];
      RowAgrees(Settle(s, claim.key, claim.stage.verdict), if claim.key == k then Entered(l, s.now) else l, k)
  {
  }

  lemma EntryRun(c: Config, s: State, l: Ledger, e: Event, k: JobKey)
    requires Inv(c, false, s) && RowAgrees(s, l, k) && RunAgrees(s, l, k)
    ensures RunAgrees(Step(c, s, e), Entry(c, s, l, e, k), k)
  {
    if RunEvent(e) && Enabled(s, e) && RowsKnown(s, e) {
      EntryRunStep(c, s, l, e, k);
    } else {
      EntryOther(c, s, l, e, k);
    }
  }

  lemma EntryOther(c: Config, s: State, l: Ledger, e: Event, k: JobKey)
    requires Inv(c, false, s) && RunAgrees(s, l, k) && !(RunEvent(e) && Enabled(s, e) && RowsKnown(s, e))
    ensures RunAgrees(Step(c, s, e), Entry(c, s, l, e, k), k)
  {
    OtherBatch(c, s, e);
  }

  lemma EntryRunStep(c: Config, s: State, l: Ledger, e: Event, k: JobKey)
    requires Inv(c, false, s) && RowAgrees(s, l, k) && RunAgrees(s, l, k)
    requires RunEvent(e) && Enabled(s, e) && RowsKnown(s, e)
    ensures RunAgrees(Step(c, s, e), Entry(c, s, l, e, k), k)
  {
    var t, l1 := Step(c, s, e), Entry(c, s, l, e, k);
    RunStepIs(c, false, s, e);
    forall i | 0 <= i < |Batch(t)| && Batch(t)[i].key == k ensures FateFits(Batch(t)[i].stage, l1.fate) {
      if i == e.i {
        EntryOwn(c, s, l, e, k);
      } else {
        assert Batch(t)[i] == Batch(s)[i];
        assert Batch(s)[e.i].key != k;
      }
    }
  }

  /** The run an answer is for. */
  lemma EntryOwn(c: Config, s: State, l: Ledger, e: Event, k: JobKey)
    requires Inv(c, false, s) && RowAgrees(s, l, k) && RunEvent(e) && Enabled(s, e) && s.drain.batch[e.i].key == k
    ensures FateFits(NextStage(c, s, e), Entry(c, s, l, e, k).fate)
  {
    var claim := s.drain.batch[e.i];
    assert Batch(s)[e.i] == claim && ClaimOk(c, false, s, claim);
    assert s.jobs[k].attempts == claim.attempts == l.attempts;
  }

  lemma {:induction false} LedgerKept(c: Config, s: State, l: Ledger, es: seq<Event>, k: JobKey)
    requires Final(c.archive) && Inv(c, false, s) && RowAgrees(s, l, k) && RunAgrees(s, l, k)
    ensures RowAgrees(Run(c, s, es), Kept(c, s, l, es, k), k)
    decreases |es|
  {
    if es != [] {
      StepKeeps(c, false, s, es[0]);
      EntryRow(c, s, l, es[0], k);
      EntryRun(c, s, l, es[0], k);
      LedgerKept(c, Step(c, s, es[0]), Entry(c, s, l, es[0], k), es[1..], k);
    }
  }

  const NoEntry: Ledger := Ledger(Pending, 0, 0, 0, None, Open)

  /**
   * In every run a job's row and chunk are what the answers to its claims, fetches, chunk writes and settles say:
   * an attempt is given back, and no failure counted, exactly for a span not published yet; it fails for good only
   * as unsupported, or when its ingest or its chunk write failed at the last attempt; and the chunk is what the last
   * chunk write that landed was given by its ingest.
   */
  lemma RowsFollowTheEvents(c: Config, now: int, es: seq<Event>, k: JobKey)
    requires Final(c.archive)
    ensures var s, l := Run(c, Empty(now), es), Kept(c, Empty(now), NoEntry, es, k);
      && l.chunk == (if k in s.chunks then Some(s.chunks[k]) else None)
      && (k in s.jobs ==>
            && k in s.tally && s.jobs[k].status == l.status && s.jobs[k].attempts == l.attempts
            && s.jobs[k].updatedAt == l.touched && s.tally[k].failures == l.failures)
  {
    EmptyOk(c, false, now);
    LedgerKept(c, Empty(now), NoEntry, es, k);
  }

  /** A job may be claimed: it waits, or its claim has not been heard of for ten minutes. */
  predicate Claimable(j: Job, now: int) {
    j.status == Pending || (j.status == Running && now - j.updatedAt > 10 * 60 * 1000)
  }

  /** The claimable jobs a pass has not had yet. */
  function Left(s: State): set<JobKey> {
    if s.drain.Idle? then {} else set k | k in s.jobs && Claimable(s.jobs[k], s.now) && k !in s.drain.seen
  }

  /** A claim takes an oldest of the claimable jobs the pass has not had yet, and can while any is left. */
  lemma ClaimsOldest(s: State)
    requires s.drain.Claiming?
    ensures forall k :: Enabled(s, ClaimWon(k)) <==>
              k in Left(s) && forall j :: j in Left(s) ==> s.jobs[k].createdAt <= s.jobs[j].createdAt
    ensures Left(s) != {} ==> exists k :: k in s.jobs && Enabled(s, ClaimWon(k))
  {
    if Left(s) != {} {
      var k := Oldest(s.jobs, Left(s));
      assert Enabled(s, ClaimWon(k));
    }
  }

  lemma Oldest(jobs: map<JobKey, Job>, keys: set<JobKey>) returns (k: JobKey)
    requires keys != {} && keys <= jobs.Keys
    ensures k in keys && forall j :: j in keys ==> jobs[k].createdAt <= jobs[j].createdAt
    decreases keys
  {
    k :| k in keys;
    if keys != {k} {
      assert keys - {k} != {} && keys == keys - {k} + {k};
      var other := Oldest(jobs, keys - {k});
      if jobs[other].createdAt < jobs[k].createdAt { k := other; }
    }
  }

  /** A claim that finds no further job, and starts working. */
  lemma ClaimedAlone(c: Config, s: State, k: JobKey)
    requires Enabled(s, ClaimWon(k)) && s.drain.batch == [] && k in s.tally
    ensures Step(c, Step(c, s, ClaimWon(k)), ClaimNone) ==
              Take(s, k).(drain := Working(s.drain.seen + {k}, [Claim(k, s.jobs[k].attempts + 1, Ingesting)]))
  {
    var s1 := Step(c, s, ClaimWon(k));
    var claim := Claim(k, s.jobs[k].attempts + 1, Ingesting);
    assert s.drain.batch + [claim] == [claim];
    assert s1 == Take(s, k).(drain := Claiming(s.drain.seen + {k}, [Claim(k, s.jobs[k].attempts + 1, Ingesting)]));
  }

  lemma NotYet(c: Config, s: State, k: JobKey, t: Timing)
    requires s.drain.Working? && |s.drain.batch| == 1 && s.drain.batch[0].key == k && s.drain.batch[0].stage.Ingesting?
    requires k in s.jobs && k in s.tally && Ordered(k, t) && Ingest(c.archive, c.folders, k, t).NotPublished?
    ensures var s1 := Step(c, Step(c, s, Ingested(0, t)), Settled(0, true));
      s1 == Settle(s, k, Return).(drain := Claiming(s.drain.seen, []))
  {
    var claim := s.drain.batch[0];
    var settling := claim.(stage := Settling(Return));
    assert s.drain.batch[0 := settling] == [settling];
    assert !AllFinished([settling]) by { assert ![settling][0].stage.Finished?; }
    var e := Ingested(0, t);
    assert Enabled(s, e) && RowsKnown(s, e) && NextStage(c, s, e) == Settling(Return) && Effect(s, e) == s;
    assert Step(c, s, e) == Advance(Effect(s, e), 0, NextStage(c, s, e));
    assert AfterRun(s.drain.seen, [settling]) == Working(s.drain.seen, [settling]);
    Returned(c, Step(c, s, e), k);
  }

  lemma Returned(c: Config, s: State, k: JobKey)
    requires s.drain.Working? && |s.drain.batch| == 1 && s.drain.batch[0].key == k
    requires s.drain.batch[0].stage == Settling(Return) && k in s.jobs && k in s.tally
    ensures Step(c, s, Settled(0, true)) == Settle(s, k, Return).(drain := Claiming(s.drain.seen, []))
  {
    var e, finished := Settled(0, true), s.drain.batch[0].(stage := Finished);
    assert s.drain.batch[0 := finished] == [finished];
    assert Enabled(s, e) && NextStage(c, s, e) == Finished && Effect(s, e) == Settle(s, k, Return);
    assert Step(c, s, e) == Advance(Settle(s, k, Return), 0, Finished);
  }

  /** So a look at a span that is not published yet costs nothing, however often it is repeated. */
  lemma WaitingCostsNothing(c: Config, s: State, k: JobKey, t: Timing)
    requires Enabled(s, ClaimWon(k)) && s.drain.batch == [] && k in s.tally && Ordered(k, t)
    requires Ingest(c.archive, c.folders, k, t).NotPublished?
    ensures var after := Run(c, s, [ClaimWon(k), ClaimNone, Ingested(0, t), Settled(0, true)]);
      && k in after.jobs && after.jobs[k].status == Pending && after.jobs[k].attempts == s.jobs[k].attempts
      && k in after.tally && after.tally[k].failures == s.tally[k].failures
      && after.chunks == s.chunks && after.drain.Claiming?
  {
    var es := [ClaimWon(k), ClaimNone, Ingested(0, t), Settled(0, true)];
    ClaimedAlone(c, s, k);
    NotYet(c, Step(c, Step(c, s, ClaimWon(k)), ClaimNone), k, t);
    FourSteps(c, s, es);
  }

  lemma FourSteps(c: Config, s: State, es: seq<Event>)
    requires |es| == 4
    ensures Run(c, s, es) == Step(c, Step(c, Step(c, Step(c, s, es[0]), es[1]), es[2]), es[3])
  {
    var s1 := Step(c, s, es[0]);
    var s2 := Step(c, s1, es[1]);
    var s3 := Step(c, s2, es[2]);
    RunNext(c, s, es);
    RunNext(c, s1, es[1..]);
    RunNext(c, s2, es[2..]);
    RunNext(c, s3, es[3..]);
    assert es[1..][1..] == es[2..] && es[2..][1..] == es[3..] && es[3..][1..] == [];
  }

  lemma RunNext(c: Config, s: State, es: seq<Event>)
    requires es != []
    ensures Run(c, s, es) == Run(c, Step(c, s, es[0]), es[1..])
    ensures Run(c, s, []) == s
  {
  }

  // ---- after the publish margin ----

  /** An ingest of the job reads the clock only once the publish margin of its span is over. */
  predicate Late(s: State, e: Event, k: JobKey) {
    e.Ingested? && Enabled(s, e) && s.drain.batch[e.i].key == k ==> e.timing.checkedAt >= MarginEnd(k)
  }

  predicate LateRun(c: Config, s: State, es: seq<Event>, k: JobKey)
    decreases |es|
  {
    es == [] || (Late(s, es[0], k) && LateRun(c, Step(c, s, es[0]), es[1..], k))
  }

  /** No run of the job is about to give its attempt back. */
  predicate Counting(s: State, k: JobKey) {
    forall i :: 0 <= i < |Batch(s)| && Batch(s)[i].key == k ==> Batch(s)[i].stage != Settling(Return)
  }

  /** The job is claimed, whether or not the worker learns of it. */
  predicate Takes(s: State, e: Event, k: JobKey) {
    Enabled(s, e) && RowsKnown(s, e) && (e == ClaimWon(k) || e == ClaimFailed(Some(k)))
  }

  function Claims(c: Config, s: State, es: seq<Event>, k: JobKey): nat
    decreases |es|
  {
    if es == [] then 0 else (if Takes(s, es[0], k) then 1 else 0) + Claims(c, Step(c, s, es[0]), es[1..], k)
  }

  lemma LateStep(c: Config, s: State, e: Event, k: JobKey)
    requires k in s.jobs && Counting(s, k) && Late(s, e, k)
    ensures var t := Step(c, s, e);
      k in t.jobs && Counting(t, k) && t.jobs[k].attempts == s.jobs[k].attempts + if Takes(s, e, k) then 1 else 0
  {
    if RunEvent(e) && Enabled(s, e) && RowsKnown(s, e) {
      LateRunStep(c, s, e, k);
    } else {
      OtherBatch(c, s, e);
    }
  }

  /** Any other event keeps the batch, empties it or adds a fresh run. */
  lemma OtherBatch(c: Config, s: State, e: Event)
    requires !(RunEvent(e) && Enabled(s, e) && RowsKnown(s, e))
    ensures var t := Step(c, s, e);
      || Batch(t) == Batch(s) || Batch(t) == []
      || exists claim: Claim :: claim.stage.Ingesting? && Batch(t) == Batch(s) + [claim]
  {
    if e.ClaimWon? && Enabled(s, e) && RowsKnown(s, e) {
      assert Batch(Step(c, s, e)) == Batch(s) + [Claim(e.key, s.jobs[e.key].attempts + 1, Ingesting)];
    }
  }

  lemma LateRunStep(c: Config, s: State, e: Event, k: JobKey)
    requires k in s.jobs && Counting(s, k) && Late(s, e, k) && RunEvent(e) && Enabled(s, e) && RowsKnown(s, e)
    ensures var t := Step(c, s, e);
      k in t.jobs && Counting(t, k) && t.jobs[k].attempts == s.jobs[k].attempts + if Takes(s, e, k) then 1 else 0
  {
    assert Batch(s)[e.i] == s.drain.batch[e.i];
    if e.Ingested? && s.drain.batch[e.i].key == k { LateVerdict(c, k, e.timing); }
    assert Step(c, s, e) == Advance(Effect(s, e), e.i, NextStage(c, s, e));
  }

  lemma LateVerdict(c: Config, k: JobKey, t: Timing)
    requires Ordered(k, t) && t.checkedAt >= MarginEnd(k)
    ensures Ingest(c.archive, c.folders, k, t) != NotPublished
  {
    if Ingest(c.archive, c.folders, k, t).NotPublished? { WaitsOnlyForTheMargin(c.archive, c.folders, k, t); }
  }

  lemma {:induction false} LateAttempts(c: Config, s: State, es: seq<Event>, k: JobKey)
    requires k in s.jobs && Counting(s, k) && LateRun(c, s, es, k)
    ensures var t := Run(c, s, es); k in t.jobs && t.jobs[k].attempts == s.jobs[k].attempts + Claims(c, s, es, k)
    decreases |es|
  {
    if es != [] {
      LateStep(c, s, es[0], k);
      LateAttempts(c, Step(c, s, es[0]), es[1..], k);
    }
  }

  /** What has come of the claims of a job so far, but for those given back. */
  function Accounted(s: State, k: JobKey): int
    requires k in s.jobs && k in s.tally
  {
    s.tally[k].failures + s.tally[k].abandoned
    + if s.jobs[k].status == Running || s.jobs[k].status == Done then 1 else 0
  }

  /**
   * Once the publish margin is over no attempt is given back: through any crashes and lost writes every further
   * claim of a job ends it, is a counted failure, is abandoned or is still running.
   */
  lemma LateClaimsCount(c: Config, s: State, es: seq<Event>, k: JobKey)
    requires Final(c.archive) && Inv(c, false, s) && k in s.jobs && Counting(s, k) && LateRun(c, s, es, k)
    ensures var t := Run(c, s, es);
      && k in s.tally && k in t.jobs && k in t.tally
      && t.jobs[k].attempts == s.jobs[k].attempts + Claims(c, s, es, k)
      && Claims(c, s, es, k) == Accounted(t, k) - Accounted(s, k)
  {
    var t := Run(c, s, es);
    LateAttempts(c, s, es, k);
    RunKeeps(c, false, s, es);
    assert JobOk(c, s, k) && JobOk(c, t, k);
  }

  // ---- one pass ----

  /** What may happen during a pass: anything but its start and the end of the process. */
  predicate PassEvent(e: Event) {
    !e.StartPass? && !e.Crash?
  }

  /** The events of the worker itself; the others are time and the main app. */
  predicate OwnEvent(e: Event) {
    PassEvent(e) && !e.Wait? && !e.Enqueue?
  }

  function StagesLeft(st: Stage): nat {
    match st
    case Ingesting => 3
    case Writing(_) => 2
    case Settling(_) => 1
    case Finished => 0
  }

  function WorkLeft(batch: seq<Claim>): nat
    decreases |batch|
  {
    if batch == [] then 0 else WorkLeft(batch[..|batch| - 1]) + StagesLeft(batch[|batch| - 1].stage)
  }

  function Unseen(s: State): nat {
    if s.drain.Idle? then 0 else |s.jobs.Keys - s.drain.seen|
  }

  /** How much of the pass is left at most. */
  function PassLeft(s: State): nat {
    match s.drain
    case Idle => 0
    case Claiming(_, batch) => 1 + 4 * |batch| + 8 * Unseen(s)
    case Working(_, batch) => 1 + WorkLeft(batch) + 8 * Unseen(s)
  }

  lemma {:induction false} WorkUpdate(batch: seq<Claim>, i: nat, claim: Claim)
    requires i < |batch|
    ensures WorkLeft(batch[i := claim]) == WorkLeft(batch) - StagesLeft(batch[i].stage) + StagesLeft(claim.stage)
    decreases |batch|
  {
    var n := |batch| - 1;
    if i < n {
      assert batch[i := claim][..n] == batch[..n][i := claim];
      WorkUpdate(batch[..n], i, claim);
    } else {
      assert batch[i := claim][..n] == batch[..n];
    }
  }

  lemma {:induction false} WorkBound(batch: seq<Claim>)
    ensures WorkLeft(batch) <= 3 * |batch|
    decreases |batch|
  {
    if batch != [] { WorkBound(batch[..|batch| - 1]); }
  }

  lemma SeenShrinks(keys: set<JobKey>, seen: set<JobKey>, k: JobKey)
    requires k in keys && k !in seen
    ensures |keys - (seen + {k})| == |keys - seen| - 1
  {
    assert keys - (seen + {k}) == (keys - seen) - {k};
  }

  /** Each of its steps brings a pass over a finite queue closer to its end. */
  lemma PassEnds(c: Config, s: State, e: Event)
    requires Inv(c, false, s) && OwnEvent(e) && Enabled(s, e)
    ensures PassLeft(Step(c, s, e)) < PassLeft(s)
  {
    if RunEvent(e) { RunShortens(c, s, e); } else { ClaimShortens(c, s, e); }
  }

  lemma ClaimShortens(c: Config, s: State, e: Event)
    requires Inv(c, false, s) && OwnEvent(e) && Enabled(s, e) && !RunEvent(e)
    ensures PassLeft(Step(c, s, e)) < PassLeft(s)
  {
    var t := Step(c, s, e);
    WorkBound(Batch(t));
    if e.ClaimWon? {
      SeenShrinks(s.jobs.Keys, s.drain.seen, e.key);
      assert t.jobs.Keys == s.jobs.Keys;
    }
  }

  lemma RunShortens(c: Config, s: State, e: Event)
    requires Inv(c, false, s) && Enabled(s, e) && RunEvent(e)
    ensures PassLeft(Step(c, s, e)) < PassLeft(s)
  {
    RunStepIs(c, false, s, e);
    StagesShrink(c, s, e);
    WorkUpdate(s.drain.batch, e.i, s.drain.batch[e.i].(stage := NextStage(c, s, e)));
    AdvanceShortens(Effect(s, e), e.i, NextStage(c, s, e));
    assert PassLeft(Effect(s, e)) == PassLeft(s);
  }

  lemma StagesShrink(c: Config, s: State, e: Event)
    requires RunEvent(e) && Enabled(s, e)
    ensures StagesLeft(NextStage(c, s, e)) < StagesLeft(s.drain.batch[e.i].stage)
  {
  }

  lemma AdvanceShortens(s: State, i: nat, stage: Stage)
    requires AtStage(s, i) && WorkLeft(s.drain.batch[i := s.drain.batch[i].(stage := stage)]) < WorkLeft(s.drain.batch)
    ensures PassLeft(Advance(s, i, stage)) < PassLeft(s)
  {
  }

  /** Time passing leaves a pass as long as it was, and a new job makes it longer by the steps of one job. */
  lemma OthersStep(c: Config, s: State, e: Event)
    requires PassEvent(e) && !OwnEvent(e) && Enabled(s, e)
    ensures PassLeft(Step(c, s, e)) <= PassLeft(s) + if e.Enqueue? then 8 else 0
  {
    if e.Enqueue? {
      JobAdded(s, e.key, s.tally[e.key := Tally(0, 0)]);
    } else {
      assert Step(c, s, e) == s.(now := e.until);
    }
  }

  lemma JobAdded(s: State, k: JobKey, tally: map<JobKey, Tally>)
    ensures PassLeft(s.(jobs := s.jobs[k := Job(Pending, 0, s.now, s.now)], tally := tally)) <= PassLeft(s) + 8
  {
    var jobs := s.jobs[k := Job(Pending, 0, s.now, s.now)];
    assert jobs.Keys == s.jobs.Keys + {k};
    if !s.drain.Idle? { UnseenGrows(s.jobs.Keys, s.drain.seen, k); }
  }

  lemma UnseenGrows(keys: set<JobKey>, seen: set<JobKey>, k: JobKey)
    ensures |(keys + {k}) - seen| <= |keys - seen| + 1
  {
    var before, after := keys - seen, (keys + {k}) - seen;
    if k in after && k !in before {
      assert after == before + {k};
    } else {
      assert after == before;
    }
  }

  function OwnSteps(es: seq<Event>): nat {
    if es == [] then 0 else (if OwnEvent(es[0]) then 1 else 0) + OwnSteps(es[1..])
  }

  function Enqueued(es: seq<Event>): nat {
    if es == [] then 0 else (if es[0].Enqueue? then 1 else 0) + Enqueued(es[1..])
  }

  /**
   * So the worker takes no more steps in a pass than it had left, and eight for each job enqueued meanwhile,
   * however long they take.
   */
  lemma {:induction false} PassTerminates(c: Config, s: State, es: seq<Event>)
    requires Final(c.archive) && Inv(c, false, s) && PassEvents(c, s, es)
    ensures OwnSteps(es) <= PassLeft(s) + 8 * Enqueued(es)
    decreases |es|
  {
    if es != [] {
      if OwnEvent(es[0]) { PassEnds(c, s, es[0]); } else { OthersStep(c, s, es[0]); }
      StepKeeps(c, false, s, es[0]);
      PassTerminates(c, Step(c, s, es[0]), es[1..]);
    }
  }

  predicate PassEvents(c: Config, s: State, es: seq<Event>)
    decreases |es|
  {
    es == [] || (PassEvent(es[0]) && Enabled(s, es[0]) && PassEvents(c, Step(c, s, es[0]), es[1..]))
  }

  predicate Seen(s: State, k: JobKey) {
    !s.drain.Idle? ==> k in s.drain.seen
  }

  /** A pass never forgets a job it has claimed. */
  lemma SeenStays(c: Config, s: State, e: Event, k: JobKey)
    requires Seen(s, k) && PassEvent(e) && Enabled(s, e)
    ensures Seen(Step(c, s, e), k)
  {
  }

  lemma {:induction false} SeenIsNotClaimed(c: Config, s: State, es: seq<Event>, k: JobKey)
    requires Seen(s, k) && PassEvents(c, s, es)
    ensures ClaimWon(k) !in es
    decreases |es|
  {
    if es != [] {
      SeenStays(c, s, es[0], k);
      SeenIsNotClaimed(c, Step(c, s, es[0]), es[1..], k);
      assert es == [es[0]] + es[1..];
    }
  }

  /**
   * Over a whole pass, however long it takes, no job is claimed twice, though it may be runnable again: put back
   * after a failure, or stuck for long enough to be reclaimed.
   */
  lemma {:induction false} ClaimedOncePerPass(c: Config, s: State, es: seq<Event>, i: nat, j: nat, k: JobKey)
    requires Inv(c, false, s) && Final(c.archive) && PassEvents(c, s, es) && i < j < |es| && es[i] == ClaimWon(k)
    ensures es[j] != ClaimWon(k)
    decreases |es|
  {
    StepKeeps(c, false, s, es[0]);
    if i == 0 {
      SeenIsNotClaimed(c, Step(c, s, es[0]), es[1..], k);
      assert es[j] == es[1..][j - 1] && es[1..][j - 1] in es[1..];
    } else {
      ClaimedOncePerPass(c, Step(c, s, es[0]), es[1..], i - 1, j - 1, k);
    }
  }

  // ---- the worker ----

  class IngestWorker {
    const config: Config
    var now: int
    var jobs: map<JobKey, Job>
    var chunks: map<JobKey, seq<Candle>>
    var drain: Drain
    ghost var tally: map<JobKey, Tally>

    ghost function View(): State
      reads this
    {
      State(now, jobs, chunks, drain, tally)
    }

    ghost predicate Valid()
      reads this
    {
      Final(config.archive) && Inv(config, false, View())
    }

    constructor (config: Config, now: int)
      requires Final(config.archive)
      ensures Valid() && this.config == config && View() == Empty(now)
    {
      this.config, this.now := config, now;
      jobs, chunks, drain, tally := map[], map[], Idle, map[];
    }

    method Start()
      requires Valid()
      modifies this`drain
      ensures View() == Step(config, old(View()), StartPass)
      ensures Valid()
    {
      StepKeeps(config, false, View(), StartPass);
      if drain.Idle? { drain := Claiming({}, []); }
    }

    /** The guarded update matched the candidate's row. */
    method ClaimJob(k: JobKey)
      requires Valid() && Candidate(View(), k)
      modifies this`jobs, this`tally, this`drain
      ensures View() == Step(config, old(View()), ClaimWon(k))
      ensures Valid()
    {
      StepKeeps(config, false, View(), ClaimWon(k));
      var job := jobs[k];
      tally := tally[k := ClaimedTally(job, tally[k])];
      jobs := jobs[k := job.(status := Running, attempts := job.attempts + 1, updatedAt := now)];
      var seen, batch := drain.seen + {k}, drain.batch + [Claim(k, job.attempts + 1, Ingesting)];
      drain := if |batch| >= JOB_CONCURRENCY then Working(seen, batch) else Claiming(seen, batch);
    }

    method NothingToClaim()
      requires Valid() && drain.Claiming?
      modifies this`drain
      ensures View() == Step(config, old(View()), ClaimNone)
      ensures Valid()
    {
      StepKeeps(config, false, View(), ClaimNone);
      if drain.batch == [] { drain := Idle; } else { drain := Working(drain.seen, drain.batch); }
    }

    /** A run's fetches have been answered. */
    method IngestRun(i: nat, timing: Timing)
      requires Valid() && Enabled(View(), Ingested(i, timing))
      modifies this`drain
      ensures View() == Step(config, old(View()), Ingested(i, timing))
      ensures Valid()
    {
      StepKeeps(config, false, View(), Ingested(i, timing));
      var claim := drain.batch[i];
      var outcome := IngestJob(config.archive, config.folders, claim.key, timing);
      Move(i, AfterIngest(outcome, claim.attempts));
    }

    method Move(i: nat, stage: Stage)
      requires AtStage(View(), i)
      modifies this`drain
      ensures View() == Advance(old(View()), i, stage)
    {
      var batch := drain.batch[i := drain.batch[i].(stage := stage)];
      drain := if AllFinished(batch) then Claiming(drain.seen, []) else Working(drain.seen, batch);
    }

    method WriteChunk(i: nat, ok: bool, landed: bool)
      requires Valid() && Enabled(View(), Stored(i, ok, landed))
      modifies this`drain, this`chunks
      ensures View() == Step(config, old(View()), Stored(i, ok, landed))
      ensures Valid()
    {
      StepKeeps(config, false, View(), Stored(i, ok, landed));
      var claim := drain.batch[i];
      if landed { chunks := chunks[claim.key := claim.stage.candles]; }
      Move(i, Settling(if ok then Complete else Fail(claim.attempts >= MAX_JOB_ATTEMPTS)));
    }

    method SettleRow(i: nat, landed: bool)
      requires Valid() && Enabled(View(), Settled(i, landed))
      modifies this`drain, this`jobs, this`tally
      ensures View() == Step(config, old(View()), Settled(i, landed))
      ensures Valid()
    {
      StepKeeps(config, false, View(), Settled(i, landed));
      assert ClaimOk(config, false, View(), Batch(View())[i]);
      var claim := drain.batch[i];
      if landed {
        tally := tally[claim.key := SettledTally(tally[claim.key], claim.stage.verdict)];
        jobs := jobs[claim.key := SettledJob(jobs[claim.key], claim.stage.verdict, now)];
      }
      Move(i, Finished);
    }
  }
}
