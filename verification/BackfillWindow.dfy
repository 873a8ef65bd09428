/**
 * The moving window of the cTrader backfill: every run fetches the deals from just before the newest exit date
 * it finds stored, so what a run sees depends on what the earlier ones wrote. `history` is every deal the broker
 * will ever report for the account, each naming its position.
 */
module BackfillWindow {
  import opened Common
  import opened Metrics
  import opened TradeWriters
  import opened CtraderBackfill
  import opened BackfillRun
  import Grouping

  const DAY: int := 86_400_000
  const BACKFILL_LOOKBACK_MS: int := 90 * DAY
  const BACKFILL_WATERMARK_BUFFER_MS: int := 15 * DAY

  /** The newest exit date stored, if any. */
  ghost function NewestExit(rows: Table): (newest: Option<int>)
    ensures newest.None? ==> forall id :: id in rows ==> rows[id].exitDate.None?
    ensures newest.Some? ==> exists id :: id in rows && rows[id].exitDate == newest
    ensures forall id :: id in rows && rows[id].exitDate.Some? ==>
              newest.Some? && rows[id].exitDate.value <= newest.value
    decreases |rows|
  {
    if rows == map[] then None
    else
      var id :| id in rows;
      var others := rows - {id};
      assert |others| < |rows| by { assert others.Keys == rows.Keys - {id}; }
      assert forall x :: x in rows ==> x == id || x in others;
      var rest, own := NewestExit(others), rows[id].exitDate;
      if own.None? || (rest.Some? && rest.value > own.value) then rest else own
  }

  /** Where a run's window begins. */
  ghost function Watermark(rows: Table, now: int): int {
    var earliest := now - BACKFILL_LOOKBACK_MS;
    match NewestExit(rows)
    case None => earliest
    case Some(newest) =>
      if newest - BACKFILL_WATERMARK_BUFFER_MS > earliest then newest - BACKFILL_WATERMARK_BUFFER_MS else earliest
  }

  /** The deals the broker answers with. */
  function Window(history: seq<PositionDeal>, from: int, to: int): (shown: seq<PositionDeal>)
    ensures forall d :: d in shown ==> d in history
    decreases |history|
  {
    if history == [] then []
    else
      var n := |history| - 1;
      assert history == history[..n] + [history[n]];
      Window(history[..n], from, to) + if from <= history[n].deal.executed <= to then [history[n]] else []
  }

  // ---- one position through the window ----

  lemma {:induction false} SinceSnoc(deals: seq<Deal>, d: Deal, from: int)
    ensures Since(deals + [d], from) == Since(deals, from) + if d.executed >= from then [d] else []
    decreases |deals|
  {
    if deals == [] {
      assert [] + [d] == [d];
    } else {
      var front, rest := if deals[0].executed >= from then [deals[0]] else [], deals[1..];
      assert (deals + [d])[1..] == rest + [d];
      SinceSnoc(rest, d, from);
      assert front + (Since(rest, from) + if d.executed >= from then [d] else [])
             == front + Since(rest, from) + if d.executed >= from then [d] else [];
    }
  }

  lemma BareSnoc(ds: seq<PositionDeal>, d: PositionDeal)
    ensures Bare(ds + [d]) == Bare(ds) + [d.deal]
  {
  }

  lemma DealsForSnoc(ds: seq<PositionDeal>, d: PositionDeal, id: string)
    ensures DealsFor(ds + [d], id) == if d.positionId == id then DealsFor(ds, id) + [d.deal] else DealsFor(ds, id)
  {
    var ms := Grouping.Members(ds, DealKey, id);
    Grouping.Extend(ds, DealKey, d);
    BareSnoc(ms, d);
    assert ms + [] == ms;
  }

  /** All deals of the position are executed by then. */
  predicate DoneBy(history: seq<PositionDeal>, id: string, to: int) {
    forall d :: d in history && d.positionId == id ==> d.deal.executed <= to
  }

  lemma WindowSnoc(history: seq<PositionDeal>, d: PositionDeal, from: int, to: int)
    ensures Window(history + [d], from, to) ==
              if from <= d.deal.executed <= to then Window(history, from, to) + [d] else Window(history, from, to)
  {
    assert (history + [d])[..|history|] == history;
    assert Window(history, from, to) + [] == Window(history, from, to);
  }

  lemma WindowNext(history: seq<PositionDeal>, d: PositionDeal, id: string, from: int, to: int)
    requires d.positionId == id ==> d.deal.executed <= to
    requires DealsFor(Window(history, from, to), id) == Since(DealsFor(history, id), from)
    ensures DealsFor(Window(history + [d], from, to), id) == Since(DealsFor(history + [d], id), from)
  {
    var deals := DealsFor(history, id);
    WindowSnoc(history, d, from, to);
    DealsForSnoc(history, d, id);
    DealsForSnoc(Window(history, from, to), d, id);
    if d.positionId == id {
      SinceSnoc(deals, d.deal, from);
      assert Since(deals, from) + [] == Since(deals, from);
    } else {
      assert deals + [] == deals && Since(deals, from) + [] == Since(deals, from);
    }
  }

  /** What the window shows of a position is its deals from the start of the window on. */
  lemma {:induction false} WindowShows(history: seq<PositionDeal>, id: string, from: int, to: int)
    requires DoneBy(history, id, to)
    ensures DealsFor(Window(history, from, to), id) == Since(DealsFor(history, id), from)
    decreases |history|
  {
    if history != [] {
      var n := |history| - 1;
      assert history == history[..n] + [history[n]] && history[n] in history;
      WindowShows(history[..n], id, from, to);
      WindowNext(history[..n], history[n], id, from, to);
    }
  }

  /** The row holds the money, the result and the exit date of the position's whole history. */
  predicate BooksRight(a: Account, deals: seq<Deal>, row: Option<Row>) {
    && row.Some? && BookedMoney(row.value, Total(Closing(deals)))
    && row.value.exitDate == Some(LastExecution(Closing(deals)))
    && row.value.result == Some(GetTradeResult(row.value.pnl.value, a.nominal))
  }

  lemma NothingMissing(whole: CloseCents, shown: CloseCents, hidden: CloseCents)
    requires whole.gross == shown.gross + hidden.gross && whole.commission == shown.commission + hidden.commission
    requires whole.swap == shown.swap + hidden.swap
    ensures whole == shown <==> hidden == NOTHING
  {
  }

  /** A row booked with some totals is right exactly when they are the position's. */
  lemma RightTotals(a: Account, deals: seq<Deal>, r: Row, shown: CloseCents)
    requires BookedMoney(r, shown) && r.exitDate == Some(LastExecution(Closing(deals)))
    requires r.result == Some(GetTradeResult(r.pnl.value, a.nominal))
    ensures BooksRight(a, deals, Some(r)) <==> Total(Closing(deals)) == shown
  {
    if BookedMoney(r, Total(Closing(deals))) { BookedApart(r, r, Total(Closing(deals)), shown); }
  }

  /** A write from a window is right exactly when the closing deals it hides add up to nothing. */
  lemma WindowBooks(a: Account, row: Option<Row>, deals: seq<Deal>, from: int, now: int)
    requires from > 0 && Closing(Since(deals, from)) != []
    ensures BooksRight(a, deals, Some(WriteWindow(a, row, deals, from, now))) <==> Hidden(deals, from) == NOTHING
  {
    var shown, r := Since(deals, from), WriteWindow(a, row, deals, from, now);
    CutTotals(deals, from);
    LatestIsShown(deals, from);
    BatchMoney(a, row, shown, now);
    BatchCloses(a, row, shown, now);
    RightTotals(a, deals, r, Total(Closing(shown)));
    NothingMissing(Total(Closing(deals)), Total(Closing(shown)), Hidden(deals, from));
  }

  /** The open path leaves the books alone. */
  lemma OpenKeepsBooks(a: Account, deals: seq<Deal>, row: Option<Row>, e: Entry)
    ensures BooksRight(a, deals, Some(UpsertOpen(row, e))) <==> BooksRight(a, deals, row)
  {
    var r, t := UpsertOpen(row, e), Total(Closing(deals));
    if row.Some? {
      assert r.grossProfit == row.value.grossProfit && r.profit == row.value.profit && r.pnl == row.value.pnl;
    }
  }

  // ---- one run ----

  /** The deals shown make the run write the position as closed. */
  predicate Closable(open: Option<seq<OpenPosition>>, id: string, shown: seq<Deal>) {
    && Closing(shown) != []
    && match open
       case Some(ps) => forall p :: p in ps ==> p.positionId != id
       case None => FirstOpen(shown).Some? && FilledVolume(Closing(shown)) >= FirstOpen(shown).value.volume
  }

  lemma DecideExactly(a: Account, open: Option<seq<OpenPosition>>, id: string, shown: seq<Deal>, now: int)
    ensures var p := Decide(a, open, id, shown, now);
      if Closable(open, id, shown) then p == Some(ReconstructClosed(a, shown, now))
      else p.None? || !p.value.fullyClosed
  {
  }

  datatype Event =
    | Reconnect(open: Option<seq<OpenPosition>>, now: int, failing: set<string>)
    | LiveWrite(positionId: string, row: Row)

  ghost function PlanOf(a: Account, history: seq<PositionDeal>, rows: Table, e: Event): seq<Write>
    requires e.Reconnect?
  {
    Plan(a, e.open, Window(history, Watermark(rows, e.now), e.now), e.now)
  }

  ghost function Step(a: Account, history: seq<PositionDeal>, rows: Table, e: Event): Table {
    match e
    case Reconnect(_, _, failing) =>
      Applied(rows, BackfillWriter(a.nominal), Successes(PlanOf(a, history, rows, e), failing))
    case LiveWrite(id, row) => rows[id := row]
  }

  /** The run writes the position as closed, and the write does not fail. */
  ghost predicate WritesClosed(history: seq<PositionDeal>, rows: Table, e: Event, id: string) {
    && e.Reconnect? && id !in e.failing
    && Closable(e.open, id, Since(DealsFor(history, id), Watermark(rows, e.now)))
  }

  /** A position's write in a plan, and what it makes of the row. */
  lemma OneWrite(a: Account, rows: Table, ws: seq<Write>, failing: set<string>, w: Write)
    requires DistinctIds(ws) && w in ws && w.positionId !in failing
    ensures Find(Applied(rows, BackfillWriter(a.nominal), Successes(ws, failing)), w.positionId)
            == Some(WriteBackfill(Find(rows, w.positionId), a.nominal, w.position))
  {
    SuccessesDistinct(ws, failing);
    AppliedAt(rows, BackfillWriter(a.nominal), Successes(ws, failing), w.positionId);
    assert w in Successes(ws, failing);
  }

  lemma NoWrite(a: Account, rows: Table, ws: seq<Write>, failing: set<string>, id: string)
    requires DistinctIds(ws) && (id in failing || forall w :: w in ws ==> w.positionId != id)
    ensures Find(Applied(rows, BackfillWriter(a.nominal), Successes(ws, failing)), id) == Find(rows, id)
  {
    SuccessesDistinct(ws, failing);
    AppliedAt(rows, BackfillWriter(a.nominal), Successes(ws, failing), id);
  }

  /** The write a plan holds for a position its deals close, and the open kind of write otherwise. */
  lemma PlanFor(a: Account, open: Option<seq<OpenPosition>>, ds: seq<PositionDeal>, now: int, id: string)
    ensures var plan, shown := Plan(a, open, ds, now), DealsFor(ds, id);
      if Closable(open, id, shown) then Write(id, ReconstructClosed(a, shown, now)) in plan
      else forall w :: w in plan && w.positionId == id ==> !w.position.fullyClosed
  {
    var shown, ids := DealsFor(ds, id), Grouping.KeysOf(ds, DealKey);
    DecideExactly(a, open, id, shown, now);
    DealWritesExactly(a, open, ds, ids, now);
    if open.Some? { OpenWritesExactly(a, open.value, Grouping.KeysOf(open.value, PositionKey), now); }
    if Closable(open, id, shown) {
      ClosesExactly(ds, id);
      assert Write(id, ReconstructClosed(a, shown, now)) in DealWrites(a, open, ds, ids, now);
    }
  }

  /** What a run leaves of a position. */
  lemma RunLeaves(a: Account, history: seq<PositionDeal>, rows: Table, e: Event, id: string)
    requires e.Reconnect? && DoneBy(history, id, e.now)
    ensures var row, deals := Find(Step(a, history, rows, e), id), DealsFor(history, id);
      if WritesClosed(history, rows, e, id)
      then row == Some(WriteWindow(a, Find(rows, id), deals, Watermark(rows, e.now), e.now))
      else row == Find(rows, id) || exists entry :: row == Some(UpsertOpen(Find(rows, id), entry))
  {
    var from := Watermark(rows, e.now);
    var ds, plan := Window(history, from, e.now), PlanOf(a, history, rows, e);
    WindowShows(history, id, from, e.now);
    NoPositionTwice(a, e.open, ds, e.now);
    PlanFor(a, e.open, ds, e.now, id);
    if WritesClosed(history, rows, e, id) {
      OneWrite(a, rows, plan, e.failing, Write(id, ReconstructClosed(a, DealsFor(ds, id), e.now)));
    } else if w :| w in plan && w.positionId == id && id !in e.failing {
      OneWrite(a, rows, plan, e.failing, w);
      assert WriteBackfill(Find(rows, id), a.nominal, w.position) == UpsertOpen(Find(rows, id), w.position.entry);
    } else {
      NoWrite(a, rows, plan, e.failing, id);
    }
  }

  /**
   * One run leaves a position with the books of its whole history if and only if it writes it as closed and the
   * deals its window hides add up to nothing, or does not and they were right before.
   */
  lemma RunBooksExactly(a: Account, history: seq<PositionDeal>, rows: Table, e: Event, id: string)
    requires e.Reconnect? && e.now > BACKFILL_LOOKBACK_MS && DoneBy(history, id, e.now)
    ensures var deals := DealsFor(history, id);
      BooksRight(a, deals, Find(Step(a, history, rows, e), id)) <==>
        if WritesClosed(history, rows, e, id) then Hidden(deals, Watermark(rows, e.now)) == NOTHING
        else BooksRight(a, deals, Find(rows, id))
  {
    var deals, before, after := DealsFor(history, id), Find(rows, id), Find(Step(a, history, rows, e), id);
    RunLeaves(a, history, rows, e, id);
    if WritesClosed(history, rows, e, id) {
      WindowBooks(a, before, deals, Watermark(rows, e.now), e.now);
    } else if after != before {
      var entry :| after == Some(UpsertOpen(before, entry));
      OpenKeepsBooks(a, deals, before, entry);
    }
  }

  lemma {:induction false} AllNamed(ds: seq<PositionDeal>)
    requires forall d :: d in ds ==> d.positionId != ""
    ensures NamedDeals(ds) == ds
    decreases |ds|
  {
    if ds != [] {
      assert ds == [ds[0]] + ds[1..] && ds[0] in ds;
      AllNamed(ds[1..]);
    }
  }

  lemma {:induction false} AllPositionsNamed(ps: seq<OpenPosition>)
    requires forall p :: p in ps ==> p.positionId != ""
    ensures NamedPositions(ps) == ps
    decreases |ps|
  {
    if ps != [] {
      assert ps == [ps[0]] + ps[1..] && ps[0] in ps;
      AllPositionsNamed(ps[1..]);
    }
  }

  /** What a run over named records does is the step of the reconnect. */
  lemma RunIsStep(a: Account, history: seq<PositionDeal>, rows: Table, e: Event, ps: Option<seq<OpenPosition>>,
      raw: seq<PositionDeal>)
    requires e.Reconnect? && raw == Window(history, Watermark(rows, e.now), e.now)
    requires ps == if e.open.Some? then Some(NamedPositions(e.open.value)) else None
    requires forall d :: d in history ==> d.positionId != ""
    requires e.open.Some? ==> forall p :: p in e.open.value ==> p.positionId != ""
    ensures Applied(rows, BackfillWriter(a.nominal), Successes(Plan(a, ps, NamedDeals(raw), e.now), e.failing))
            == Step(a, history, rows, e)
  {
    AllNamed(raw);
    if e.open.Some? { AllPositionsNamed(e.open.value); }
    assert ps == e.open;
  }

  /** One backfill: `lastClosed` is what the query for the newest exit date answers. */
  method BackfillAccount(service: BackfillService, open: Option<seq<OpenPosition>>, history: seq<PositionDeal>,
      lastClosed: Option<int>, now: int, failing: set<string>) returns (written: nat)
    requires service.writer.nominal == service.account.nominal && lastClosed == NewestExit(service.writer.rows)
    requires forall d :: d in history ==> d.positionId != ""
    requires open.Some? ==> forall p :: p in open.value ==> p.positionId != ""
    modifies service.writer`rows
    ensures service.writer.rows
            == Step(service.account, history, old(service.writer.rows), Reconnect(open, now, failing))
  {
    var from := now - BACKFILL_LOOKBACK_MS;
    if lastClosed.Some? && lastClosed.value - BACKFILL_WATERMARK_BUFFER_MS > from {
      from := lastClosed.value - BACKFILL_WATERMARK_BUFFER_MS;
    }
    var raw := Window(history, from, now);
    ghost var ps := if open.Some? then Some(NamedPositions(open.value)) else None;
    RunIsStep(service.account, history, service.writer.rows, Reconnect(open, now, failing), ps, raw);
    written := service.Run(open, raw, now, failing);
  }

  // ---- any series of reconnects ----

  ghost function Run(a: Account, history: seq<PositionDeal>, rows: Table, es: seq<Event>): Table
    decreases |es|
  {
    if es == [] then rows else Run(a, history, Step(a, history, rows, es[0]), es[1..])
  }

  /** The position has been closed, and handled live, before the events begin. */
  predicate Past(history: seq<PositionDeal>, id: string, e: Event) {
    match e
    case Reconnect(_, now, _) => now > BACKFILL_LOOKBACK_MS && DoneBy(history, id, now)
    case LiveWrite(positionId, _) => positionId != id
  }

  /** Whether the last run that wrote the position as closed saw all of its money; none did: as it was. */
  ghost predicate LastSawAll(a: Account, history: seq<PositionDeal>, rows: Table, es: seq<Event>, id: string,
      soFar: bool)
    decreases |es|
  {
    if es == [] then soFar
    else
      var seen :=
        if WritesClosed(history, rows, es[0], id)
        then Hidden(DealsFor(history, id), Watermark(rows, es[0].now)) == NOTHING else soFar;
      LastSawAll(a, history, Step(a, history, rows, es[0]), es[1..], id, seen)
  }

  /**
   * Through any reconnects, with any failing writes and anything happening to the other positions, a closed
   * position's row holds the books of its whole history if and only if the window of the last run that wrote it
   * hid none of its money; if no run wrote it, if it did to begin with.
   */
  lemma {:induction false} ReconnectsExactly(a: Account, history: seq<PositionDeal>, rows: Table, es: seq<Event>,
      id: string)
    requires forall e :: e in es ==> Past(history, id, e)
    ensures var deals := DealsFor(history, id);
      BooksRight(a, deals, Find(Run(a, history, rows, es), id)) <==>
        LastSawAll(a, history, rows, es, id, BooksRight(a, deals, Find(rows, id)))
    decreases |es|
  {
    if es != [] {
      assert es[0] in es && Past(history, id, es[0]);
      if es[0].Reconnect? { RunBooksExactly(a, history, rows, es[0], id); }
      ReconnectsExactly(a, history, Step(a, history, rows, es[0]), es[1..], id);
    }
  }

  // ---- a retry after a failed write ----

  /**
   * The write of a closed position failed. The next run with the open positions known makes up for it if and only
   * if the position's last closing deal is not older than its window and the deals that are add up to nothing.
   */
  lemma RetryExactly(a: Account, history: seq<PositionDeal>, rows: Table, first: Event, again: Event, id: string)
    requires first.Reconnect? && Past(history, id, first) && id in first.failing
    requires again.Reconnect? && Past(history, id, again) && id !in again.failing
    requires again.open.Some? && forall p :: p in again.open.value ==> p.positionId != id
    ensures var deals, partial := DealsFor(history, id), Step(a, history, rows, first);
      var from := Watermark(partial, again.now);
      BooksRight(a, deals, Find(Step(a, history, partial, again), id)) <==>
        if Closing(deals) != [] && LastExecution(Closing(deals)) >= from then Hidden(deals, from) == NOTHING
        else BooksRight(a, deals, Find(rows, id))
  {
    var partial := Step(a, history, rows, first);
    var deals, from := DealsFor(history, id), Watermark(partial, again.now);
    RunBooksExactly(a, history, rows, first, id);
    RunBooksExactly(a, history, partial, again, id);
    LatestIsShown(deals, from);
    if Closing(deals) == [] { NoneShown(deals, from); }
  }

  lemma {:induction false} NoneShown(deals: seq<Deal>, from: int)
    requires Closing(deals) == []
    ensures Closing(Since(deals, from)) == []
    decreases |deals|
  {
    if deals != [] {
      assert deals == [deals[0]] + deals[1..];
      ClosingNext(deals[0], deals[1..]);
      NoneShown(deals[1..], from);
      SinceNext(deals[0], deals[1..], from);
      ClosingNext(deals[0], Since(deals[1..], from));
    }
  }

  predicate SameBooks(x: Option<Row>, y: Option<Row>) {
    x.Some? && y.Some? && Agree(x.value, y.value)
  }

  lemma OpenKeepsSame(a: Account, x: Option<Row>, e: Entry, y: Row)
    requires y.profit.Some?
    ensures SameBooks(Some(UpsertOpen(x, e)), Some(y)) <==> SameBooks(x, Some(y))
    ensures Alike(a.nominal, x, Some(UpsertOpen(x, e)))
  {
  }

  /** A row the run does not write as closed. */
  lemma KeptAlike(a: Account, before: Option<Row>, after: Option<Row>, y: Row)
    requires y.profit.Some?
    requires after == before || exists entry :: after == Some(UpsertOpen(before, entry))
    ensures Alike(a.nominal, before, after) && (SameBooks(after, Some(y)) <==> SameBooks(before, Some(y)))
  {
    if after != before {
      var entry :| after == Some(UpsertOpen(before, entry));
      OpenKeepsSame(a, before, entry, y);
    }
  }

  /** The rows of one position: before, after the first run, after the next, and as they should have become. */
  lemma RetryRows(a: Account, x: Option<Row>, y: Option<Row>, z: Option<Row>, deals: seq<Deal>, from: int, next: int,
      now: int, later: int, rewritten: bool)
    requires from > 0 && next > 0 && Closing(Since(deals, from)) != [] && Alike(a.nominal, x, y)
    requires if rewritten then Closing(Since(deals, next)) != [] && z == Some(WriteWindow(a, y, deals, next, later))
             else z == y || exists entry :: z == Some(UpsertOpen(y, entry))
    ensures var full := Some(WriteWindow(a, x, deals, from, now));
      SameBooks(z, full) <==>
        if rewritten then Hidden(deals, next) == Hidden(deals, from) else SameBooks(y, full)
  {
    var full := WriteWindow(a, x, deals, from, now);
    if rewritten {
      CutsAgree(a, x, y, deals, from, next, now, later);
      AgreeFlips(full, WriteWindow(a, y, deals, next, later));
    } else {
      KeptAlike(a, y, z, full);
    }
  }

  /** The row after the first run. */
  lemma FirstRows(a: Account, x: Option<Row>, y: Option<Row>, deals: seq<Deal>, from: int, now: int, failed: bool)
    requires if failed then y == x || exists entry :: y == Some(UpsertOpen(x, entry))
             else y == Some(WriteWindow(a, x, deals, from, now))
    ensures var full := Some(WriteWindow(a, x, deals, from, now));
      Alike(a.nominal, x, y) && (SameBooks(y, full) <==> !failed || SameBooks(x, full))
  {
    var full := WriteWindow(a, x, deals, from, now);
    if failed { KeptAlike(a, x, y, full); } else { WrittenAlike(a, x, deals, from, now); }
  }

  /**
   * A run, of whose writes some failed, and the next one leave a position as the run would have without failures
   * if and only if their windows hide the same money of it; or, when the next run does not write it, if the first
   * write did not fail or had nothing to change.
   */
  lemma RetryConvergesExactly(a: Account, history: seq<PositionDeal>, rows: Table, first: Event, again: Event,
      id: string)
    requires first.Reconnect? && Past(history, id, first) && again.Reconnect? && Past(history, id, again)
    requires WritesClosed(history, rows, first.(failing := {}), id)
    ensures var deals, partial := DealsFor(history, id), Step(a, history, rows, first);
      var full := Find(Step(a, history, rows, first.(failing := {})), id);
      SameBooks(Find(Step(a, history, partial, again), id), full) <==>
        if WritesClosed(history, partial, again, id)
        then Hidden(deals, Watermark(partial, again.now)) == Hidden(deals, Watermark(rows, first.now))
        else id !in first.failing || SameBooks(Find(rows, id), full)
  {
    var deals, partial := DealsFor(history, id), Step(a, history, rows, first);
    var from, next := Watermark(rows, first.now), Watermark(partial, again.now);
    var x, y, z := Find(rows, id), Find(partial, id), Find(Step(a, history, partial, again), id);
    RunLeaves(a, history, rows, first, id);
    RunLeaves(a, history, rows, first.(failing := {}), id);
    RunLeaves(a, history, partial, again, id);
    FirstRows(a, x, y, deals, from, first.now, id in first.failing);
    RetryRows(a, x, y, z, deals, from, next, first.now, again.now, WritesClosed(history, partial, again, id));
  }

  lemma WrittenAlike(a: Account, x: Option<Row>, deals: seq<Deal>, from: int, now: int)
    ensures Alike(a.nominal, x, Some(WriteWindow(a, x, deals, from, now)))
  {
    WriteKeepsAlike(a.nominal, x, BackfillOp(ReconstructClosed(a, Since(deals, from), now)));
  }

  lemma AgreeFlips(x: Row, y: Row)
    ensures Agree(x, y) <==> Agree(y, x)
  {
  }

  // ---- two ways a run spoils the books ----

  function Opened(id: string, day: int): PositionDeal {
    PositionDeal(id, Deal(1, 100, 100, true, day * DAY, day * DAY, None))
  }

  function ClosedFor(id: string, day: int, cents: int): PositionDeal {
    PositionDeal(id, Deal(1, 100, 100, false, day * DAY, day * DAY, Some(CloseCents(cents, 0, 0))))
  }

  function OnDay(day: int, failing: set<string>): Event {
    Reconnect(Some([]), day * DAY, failing)
  }

  lemma Untouched(a: Account, history: seq<PositionDeal>, rows: Table, e: Event, id: string)
    requires e.Reconnect? && e.open == Some([]) && forall d :: d in history ==> d.positionId != id
    ensures Find(Step(a, history, rows, e), id) == Find(rows, id)
  {
    var ds, plan := Window(history, Watermark(rows, e.now), e.now), PlanOf(a, history, rows, e);
    NoPositionTwice(a, e.open, ds, e.now);
    DealWritesExactly(a, e.open, ds, Grouping.KeysOf(ds, DealKey), e.now);
    NoWrite(a, rows, plan, e.failing, id);
  }

  /** A position opened and closed. */
  lemma RoundTrip(open: Deal, close: Deal, from: int)
    requires open.close.None? && close.close.Some?
    ensures Closing([open, close]) == [close]
    ensures LastExecution([close]) == if close.executed > 0 then close.executed else 0
    ensures Hidden([open, close], from) == if close.executed < from then Add(NOTHING, close.close.value) else NOTHING
  {
    assert [open] + [close] == [open, close] && [close] + [] == [close];
    ClosingNext(open, [close]);
    ClosingNext(close, []);
    HiddenNext(close, [], from);
    HiddenNext(open, [close], from);
  }

  const LOSING: seq<PositionDeal> := [Opened("A", 175), ClosedFor("A", 181, 100)] + [Opened("B", 239)]
    + [ClosedFor("B", 240, 50)]

  lemma TwoDeals(p: PositionDeal, q: PositionDeal)
    requires p.positionId == q.positionId
    ensures DealsFor([p, q], p.positionId) == [p.deal, q.deal]
    ensures forall id :: id != p.positionId ==> DealsFor([p, q], id) == []
  {
    assert [] + [p] == [p] && [p] + [q] == [p, q];
    forall id ensures DealsFor([p, q], id) == if id == p.positionId then [p.deal, q.deal] else [] {
      DealsForSnoc([], p, id);
      DealsForSnoc([p], q, id);
    }
  }

  lemma LosingDeals()
    ensures DealsFor(LOSING, "A") == [Opened("A", 175).deal, ClosedFor("A", 181, 100).deal]
    ensures DealsFor(LOSING, "B") == [Opened("B", 239).deal, ClosedFor("B", 240, 50).deal]
  {
    TwoDeals(Opened("A", 175), ClosedFor("A", 181, 100));
    LosingDealsOf("A");
    LosingDealsOf("B");
  }

  lemma LosingDealsOf(id: string)
    ensures DealsFor(LOSING, id) == DealsFor([Opened("A", 175), ClosedFor("A", 181, 100)], id)
              + if id == "B" then [Opened("B", 239).deal, ClosedFor("B", 240, 50).deal] else []
  {
    var start, third := [Opened("A", 175), ClosedFor("A", 181, 100)], Opened("B", 239);
    DealsForSnoc(start, third, id);
    DealsForSnoc(start + [third], ClosedFor("B", 240, 50), id);
  }

  lemma LosingDone(day: int, id: string)
    requires day > 240
    ensures Past(LOSING, id, OnDay(day, {})) && Past(LOSING, id, OnDay(day, {"A"}))
  {
  }

  /** The run of day 241 finds an empty table, so its window begins on day 151. */
  lemma WrittenFirst(a: Account, id: string, failing: set<string>)
    requires id in {"A", "B"} && id !in failing && failing <= {"A"}
    ensures BooksRight(a, DealsFor(LOSING, id), Find(Step(a, LOSING, map[], OnDay(241, failing)), id))
  {
    var deals := DealsFor(LOSING, id);
    LosingDeals();
    LosingDone(241, id);
    RoundTrip(deals[0], deals[1], 151 * DAY);
    LatestIsShown(deals, 151 * DAY);
    RunBooksExactly(a, LOSING, map[], OnDay(241, failing), id);
  }

  /**
   * Closed sixty days ago, position A is not written because its write fails; B, closed yesterday, is. The next
   * run's window begins a fortnight before that, and A stays missing, though a run without the failure writes it.
   */
  lemma FailedWriteIsLost(a: Account)
    ensures var deals, partial := DealsFor(LOSING, "A"), Step(a, LOSING, map[], OnDay(241, {"A"}));
      && BooksRight(a, deals, Find(Step(a, LOSING, map[], OnDay(241, {})), "A"))
      && !BooksRight(a, deals, Find(Step(a, LOSING, partial, OnDay(242, {})), "A"))
  {
    var partial := Step(a, LOSING, map[], OnDay(241, {"A"}));
    var deals, others := DealsFor(LOSING, "A"), DealsFor(LOSING, "B");
    WrittenFirst(a, "A", {});
    WrittenFirst(a, "B", {"A"});
    LosingDeals();
    LosingDone(241, "A");
    LosingDone(242, "A");
    RoundTrip(deals[0], deals[1], 225 * DAY);
    RoundTrip(others[0], others[1], 225 * DAY);
    assert partial["B"].exitDate == Some(240 * DAY);
    RetryExactly(a, LOSING, map[], OnDay(241, {"A"}), OnDay(242, {}), "A");
  }

  const SHRINKING: seq<PositionDeal> := [Opened("P", 200), ClosedFor("P", 201, 100)] + [ClosedFor("P", 240, 50)]

  lemma ShrinkingDeals()
    ensures var early, last := ClosedFor("P", 201, 100).deal, ClosedFor("P", 240, 50).deal;
      DealsFor(SHRINKING, "P") == [Opened("P", 200).deal] + ([early] + [last])
  {
    var start := [Opened("P", 200), ClosedFor("P", 201, 100)];
    TwoDeals(start[0], start[1]);
    DealsForSnoc(start, ClosedFor("P", 240, 50), "P");
  }

  /** A position opened, closed in part and closed. */
  lemma ThreeDeals(open: Deal, part: Deal, last: Deal, from: int)
    requires open.close.None? && part.close.Some? && last.close.Some? && 0 < part.executed < last.executed
    ensures var deals := [open] + ([part] + [last]);
      && LastExecution(Closing(deals)) == last.executed && Closing(deals) != []
      && (from <= part.executed ==> Hidden(deals, from) == NOTHING)
      && (part.executed < from <= last.executed ==> Hidden(deals, from) == Add(NOTHING, part.close.value))
  {
    var rest := [part] + [last];
    assert [last] + [] == [last];
    ClosingNext(last, []);
    ClosingNext(part, [last]);
    ClosingNext(open, rest);
    HiddenNext(last, [], from);
    HiddenNext(part, [last], from);
    HiddenNext(open, rest, from);
  }

  lemma OnlyPWritten(a: Account)
    ensures forall id :: id in Step(a, SHRINKING, map[], OnDay(241, {})) ==> id == "P"
  {
    var rows := Step(a, SHRINKING, map[], OnDay(241, {}));
    forall id ensures id in rows ==> id == "P" {
      if id != "P" { Untouched(a, SHRINKING, map[], OnDay(241, {}), id); }
    }
  }

  lemma ShrinkingDone(day: int)
    requires day > 240
    ensures Past(SHRINKING, "P", OnDay(day, {}))
  {
  }

  lemma FirstRunRight(a: Account)
    ensures var row := Find(Step(a, SHRINKING, map[], OnDay(241, {})), "P");
      BooksRight(a, DealsFor(SHRINKING, "P"), row) && row.value.exitDate == Some(240 * DAY)
  {
    var deals := DealsFor(SHRINKING, "P");
    ShrinkingDeals();
    ShrinkingDone(241);
    ThreeDeals(deals[0], deals[1], deals[2], 151 * DAY);
    LatestIsShown(deals, 151 * DAY);
    RunBooksExactly(a, SHRINKING, map[], OnDay(241, {}), "P");
  }

  /** The second run finds nothing but P, and so its window begins a fortnight before P's exit date. */
  lemma SecondWindow(rows: Table)
    requires (forall id :: id in rows ==> id == "P") && "P" in rows && rows["P"].exitDate == Some(240 * DAY)
    ensures Watermark(rows, 242 * DAY) == 225 * DAY
  {
  }

  /**
   * Closed in part on day 201 and for good on day 240, a position is rebuilt rightly on day 241. The reconnect of
   * day 242 no longer sees the first closing deal, and sets the row to the money of the last one alone.
   */
  lemma RerunSpoilsTheBooks(a: Account)
    ensures var rows := Step(a, SHRINKING, map[], OnDay(241, {}));
      var deals := DealsFor(SHRINKING, "P");
      && BooksRight(a, deals, Find(rows, "P"))
      && !BooksRight(a, deals, Find(Step(a, SHRINKING, rows, OnDay(242, {})), "P"))
  {
    var deals, rows := DealsFor(SHRINKING, "P"), Step(a, SHRINKING, map[], OnDay(241, {}));
    FirstRunRight(a);
    OnlyPWritten(a);
    SecondWindow(rows);
    ShrinkingDeals();
    ShrinkingDone(242);
    ThreeDeals(deals[0], deals[1], deals[2], 225 * DAY);
    LatestIsShown(deals, 225 * DAY);
    RunBooksExactly(a, SHRINKING, rows, OnDay(242, {}), "P");
  }
}
