/**
 * One backfill of a cTrader account: from the broker's open positions and its recent deals to the writes
 * it makes, and what those writes leave in the trade table.
 */
module BackfillRun {
  import opened Common
  import opened TradeWriters
  import opened CtraderBackfill
  import Grouping

  datatype PositionDeal = PositionDeal(positionId: string, deal: Deal)

  datatype OpenPosition = OpenPosition(positionId: string, symbolId: int, volume: int, buy: bool, openTimestamp: int)

  datatype Write = Write(positionId: string, position: BackfillPosition)

  function DealKey(d: PositionDeal): string { d.positionId }

  function PositionKey(p: OpenPosition): string { p.positionId }

  /** A record without a position id is dropped. */
  function NamedDeals(ds: seq<PositionDeal>): (r: seq<PositionDeal>)
    ensures forall d :: d in r <==> d in ds && d.positionId != ""
  {
    if ds == [] then [] else (if ds[0].positionId != "" then [ds[0]] else []) + NamedDeals(ds[1..])
  }

  function NamedPositions(ps: seq<OpenPosition>): (r: seq<OpenPosition>)
    ensures forall p :: p in r <==> p in ps && p.positionId != ""
  {
    if ps == [] then [] else (if ps[0].positionId != "" then [ps[0]] else []) + NamedPositions(ps[1..])
  }

  function Bare(ds: seq<PositionDeal>): (r: seq<Deal>)
    ensures |r| == |ds| && forall i :: 0 <= i < |ds| ==> r[i] == ds[i].deal
  {
    seq(|ds|, i requires 0 <= i < |ds| => ds[i].deal)
  }

  /** The deals of one position, in the order received. */
  function DealsFor(ds: seq<PositionDeal>, id: string): seq<Deal> {
    Bare(Grouping.Members(ds, DealKey, id))
  }

  /** A later record of the same id replaces the earlier one. */
  function LastOf(ps: seq<OpenPosition>, id: string): OpenPosition
    requires id in Grouping.KeysOf(ps, PositionKey)
    decreases |ps|
  {
    var n := |ps| - 1;
    if ps[n].positionId == id then ps[n] else LastOf(ps[..n], id)
  }

  function MapOpen(a: Account, p: OpenPosition, now: int): BackfillPosition {
    var entered := ToDate(p.openTimestamp, now);
    BackfillPosition(Entry(a.symbolName(p.symbolId), Side(p.buy), p.volume as real / VOLUME_PER_LOT, entered),
                     false, None, 0.0, 0.0, 0.0)
  }

  /** Without the open set only a position whose opening deal is in the window can be classified. */
  function ReconstructWithoutReconcile(a: Account, deals: seq<Deal>, now: int): Option<BackfillPosition> {
    match FirstOpen(deals)
    case None => None
    case Some(d) =>
      if FilledVolume(Closing(deals)) >= d.volume && Closing(deals) != [] then Some(ReconstructClosed(a, deals, now))
      else
        var entered := ToDate(if d.executed != 0 then d.executed else d.created, now);
        var entry := Entry(a.symbolName(d.symbolId), Side(d.buy), d.volume as real / VOLUME_PER_LOT, entered);
        Some(BackfillPosition(entry, false, None, 0.0, 0.0, 0.0))
  }

  /** `open` is None when the open positions could not be fetched. */
  function Decide(a: Account, open: Option<seq<OpenPosition>>, id: string, deals: seq<Deal>,
      now: int): Option<BackfillPosition> {
    match open
    case None => ReconstructWithoutReconcile(a, deals, now)
    case Some(ps) =>
      if id in Grouping.KeysOf(ps, PositionKey) || Closing(deals) == [] then None
      else Some(ReconstructClosed(a, deals, now))
  }

  function DealWrites(a: Account, open: Option<seq<OpenPosition>>, ds: seq<PositionDeal>, ids: seq<string>,
      now: int): seq<Write>
    decreases |ids|
  {
    if ids == [] then []
    else
      var id := ids[|ids| - 1];
      var w := Decide(a, open, id, DealsFor(ds, id), now);
      DealWrites(a, open, ds, ids[..|ids| - 1], now) + if w.Some? then [Write(id, w.value)] else []
  }

  function OpenWrites(a: Account, ps: seq<OpenPosition>, ids: seq<string>, now: int): seq<Write>
    requires forall id :: id in ids ==> id in Grouping.KeysOf(ps, PositionKey)
    decreases |ids|
  {
    if ids == [] then []
    else
      var id := ids[|ids| - 1];
      OpenWrites(a, ps, ids[..|ids| - 1], now) + [Write(id, MapOpen(a, LastOf(ps, id), now))]
  }

  /** Everything one run writes, in order. */
  function Plan(a: Account, open: Option<seq<OpenPosition>>, ds: seq<PositionDeal>, now: int): seq<Write> {
    DealWrites(a, open, ds, Grouping.KeysOf(ds, DealKey), now)
    + match open
      case None => []
      case Some(ps) => OpenWrites(a, ps, Grouping.KeysOf(ps, PositionKey), now)
  }

  // ---- what the plan contains ----

  ghost predicate Closes(ds: seq<PositionDeal>, id: string) {
    exists d :: d in ds && d.positionId == id && d.deal.close.Some?
  }

  lemma {:induction false} ClosingNonempty(deals: seq<Deal>)
    ensures Closing(deals) != [] <==> exists i :: 0 <= i < |deals| && deals[i].close.Some?
  {
    if deals != [] {
      ClosingNonempty(deals[1..]);
      if i :| 0 <= i < |deals| && deals[i].close.Some? {
        if i > 0 { assert deals[1..][i - 1].close.Some?; }
      }
      if j :| 0 <= j < |deals[1..]| && deals[1..][j].close.Some? { assert deals[j + 1].close.Some?; }
    }
  }

  lemma ClosesExactly(ds: seq<PositionDeal>, id: string)
    ensures Closing(DealsFor(ds, id)) != [] <==> Closes(ds, id)
  {
    var ms := Grouping.Members(ds, DealKey, id);
    ClosingNonempty(Bare(ms));
    if Closes(ds, id) {
      var d :| d in ds && d.positionId == id && d.deal.close.Some?;
      assert d in ms;
      var i :| 0 <= i < |ms| && ms[i] == d;
      assert Bare(ms)[i].close.Some?;
    }
    if i :| 0 <= i < |ms| && Bare(ms)[i].close.Some? {
      assert ms[i] in ms;
    }
  }

  /** Which of the listed ids are written from deals, and as what. */
  lemma {:induction false} DealWritesExactly(a: Account, open: Option<seq<OpenPosition>>, ds: seq<PositionDeal>,
      ids: seq<string>, now: int)
    ensures forall w :: w in DealWrites(a, open, ds, ids, now) <==>
              w.positionId in ids && Decide(a, open, w.positionId, DealsFor(ds, w.positionId), now) == Some(w.position)
    decreases |ids|
  {
    if ids != [] {
      var n := |ids| - 1;
      DealWritesExactly(a, open, ds, ids[..n], now);
      assert ids == ids[..n] + [ids[n]];
    }
  }

  lemma {:induction false} OpenWritesExactly(a: Account, ps: seq<OpenPosition>, ids: seq<string>, now: int)
    requires forall id :: id in ids ==> id in Grouping.KeysOf(ps, PositionKey)
    ensures forall w :: w in OpenWrites(a, ps, ids, now) <==>
              w.positionId in ids && w.position == MapOpen(a, LastOf(ps, w.positionId), now)
    decreases |ids|
  {
    if ids != [] {
      var n := |ids| - 1;
      OpenWritesExactly(a, ps, ids[..n], now);
      assert ids == ids[..n] + [ids[n]];
    }
  }

  /**
   * With the open set known, a run writes as closed exactly the positions absent from it that have a closing
   * deal, and as open exactly the open ones.
   */
  lemma ClosedExactly(a: Account, ps: seq<OpenPosition>, ds: seq<PositionDeal>, now: int, id: string)
    ensures var isOpen := exists p :: p in ps && p.positionId == id;
      && ((exists w :: w in Plan(a, Some(ps), ds, now) && w.positionId == id && w.position.fullyClosed) <==>
          !isOpen && Closes(ds, id))
      && ((exists w :: w in Plan(a, Some(ps), ds, now) && w.positionId == id && !w.position.fullyClosed) <==> isOpen)
  {
    var ids, opens := Grouping.KeysOf(ds, DealKey), Grouping.KeysOf(ps, PositionKey);
    DealWritesExactly(a, Some(ps), ds, ids, now);
    OpenWritesExactly(a, ps, opens, now);
    ClosesExactly(ds, id);
    var plan := Plan(a, Some(ps), ds, now);
    if id in opens {
      assert Write(id, MapOpen(a, LastOf(ps, id), now)) in plan;
    } else if Closes(ds, id) {
      assert Write(id, ReconstructClosed(a, DealsFor(ds, id), now)) in plan;
    }
  }

  /**
   * Without it, a position is written as closed exactly when its opening deal is in the window and its
   * closing deals cover the opened volume.
   */
  lemma FallbackClosesExactly(a: Account, ds: seq<PositionDeal>, now: int, id: string)
    ensures (exists w :: w in Plan(a, None, ds, now) && w.positionId == id && w.position.fullyClosed) <==>
              var deals := DealsFor(ds, id);
              && Closes(ds, id) && FirstOpen(deals).Some?
                  && FilledVolume(Closing(deals)) >= FirstOpen(deals).value.volume
  {
    var ids := Grouping.KeysOf(ds, DealKey);
    DealWritesExactly(a, None, ds, ids, now);
    ClosesExactly(ds, id);
    if Closes(ds, id) { assert id in ids; }
    var w := Decide(a, None, id, DealsFor(ds, id), now);
    if w.Some? && id in ids { assert Write(id, w.value) in Plan(a, None, ds, now); }
  }

  /** The last record of an id in a list of open positions. */
  predicate IsLast(ps: seq<OpenPosition>, p: OpenPosition) {
    exists i :: 0 <= i < |ps| && ps[i] == p && forall j :: i < j < |ps| ==> ps[j].positionId != p.positionId
  }

  lemma {:induction false} LastOfIsLast(ps: seq<OpenPosition>, id: string)
    requires id in Grouping.KeysOf(ps, PositionKey)
    ensures LastOf(ps, id).positionId == id && IsLast(ps, LastOf(ps, id))
    decreases |ps|
  {
    var n := |ps| - 1;
    if ps[n].positionId != id {
      LastOfIsLast(ps[..n], id);
      var i :| 0 <= i < n && ps[..n][i] == LastOf(ps, id)
        && forall j :: i < j < n ==> ps[..n][j].positionId != LastOf(ps, id).positionId;
      assert ps[i] == LastOf(ps, id) && forall j :: i < j < |ps| ==> j == n || ps[j] == ps[..n][j];
    }
  }

  /** The first of a position's deals that opens it. */
  predicate OpensFirst(deals: seq<Deal>, d: Deal) {
    exists i :: 0 <= i < |deals| && deals[i] == d && d.close.None? && forall j :: 0 <= j < i ==> deals[j].close.Some?
  }

  lemma {:induction false} FirstOpenIsFirst(deals: seq<Deal>)
    ensures FirstOpen(deals).Some? ==> OpensFirst(deals, FirstOpen(deals).value)
    decreases |deals|
  {
    if deals != [] && deals[0].close.None? {
      assert OpensFirst(deals, deals[0]);
    } else if deals != [] {
      FirstOpenIsFirst(deals[1..]);
      if FirstOpen(deals).Some? {
        var d := FirstOpen(deals).value;
        var i :| 0 <= i < |deals[1..]| && deals[1..][i] == d && forall j :: 0 <= j < i ==> deals[1..][j].close.Some?;
        assert deals[i + 1] == d && forall j :: 0 <= j < i + 1 ==> j == 0 || deals[j] == deals[1..][j - 1];
      }
    }
  }

  /** When a deal took place: as executed, or else as created, or else now. */
  function When(d: Deal, now: int): int {
    if d.executed > 0 then d.executed
    else if d.executed == 0 && d.created > 0 then d.created
    else now
  }

  /** The entry a position's first opening deal describes. */
  predicate Entered(a: Account, d: Deal, now: int, e: Entry) {
    && e.symbol == a.symbolName(d.symbolId) && (d.buy <==> e.side == "BUY") && (!d.buy <==> e.side == "SELL")
    && e.quantity * 10000.0 == d.volume as real && e.entryDate == When(d, now)
  }

  /**
   * What is written as open: with the open positions known, each as its last record describes it; without, each as
   * its first opening deal does. No money goes with it.
   */
  lemma OpenWritesDescribe(a: Account, open: Option<seq<OpenPosition>>, ds: seq<PositionDeal>, now: int, w: Write)
    requires w in Plan(a, open, ds, now) && !w.position.fullyClosed
    ensures w.position.exitDate.None?
    ensures open.None? ==>
      exists d :: OpensFirst(DealsFor(ds, w.positionId), d) && Entered(a, d, now, w.position.entry)
    ensures open.Some? ==>
      exists p: OpenPosition :: p.positionId == w.positionId && IsLast(open.value, p)
        && w.position.entry.symbol == a.symbolName(p.symbolId)
        && w.position.entry.side == (if p.buy then "BUY" else "SELL")
        && w.position.entry.quantity * 10000.0 == p.volume as real
        && w.position.entry.entryDate == if p.openTimestamp > 0 then p.openTimestamp else now
  {
    var id, ids := w.positionId, Grouping.KeysOf(ds, DealKey);
    DealWritesExactly(a, open, ds, ids, now);
    match open {
      case None => FallbackDescribes(a, DealsFor(ds, id), now);
      case Some(ps) =>
        OpenWritesExactly(a, ps, Grouping.KeysOf(ps, PositionKey), now);
        LastOfIsLast(ps, id);
        assert w.position == MapOpen(a, LastOf(ps, id), now);
    }
  }

  lemma FallbackDescribes(a: Account, deals: seq<Deal>, now: int)
    ensures var p := ReconstructWithoutReconcile(a, deals, now);
      p.Some? && !p.value.fullyClosed ==>
        p.value.exitDate.None? && exists d :: OpensFirst(deals, d) && Entered(a, d, now, p.value.entry)
  {
    FirstOpenIsFirst(deals);
    var p := ReconstructWithoutReconcile(a, deals, now);
    if p.Some? && !p.value.fullyClosed { assert Entered(a, FirstOpen(deals).value, now, p.value.entry); }
  }

  /** A position rebuilt as closed is entered as its first opening deal says, if that is known. */
  lemma ClosedDescribes(a: Account, deals: seq<Deal>, now: int)
    ensures FirstOpen(deals).Some? ==>
      OpensFirst(deals, FirstOpen(deals).value)
      && Entered(a, FirstOpen(deals).value, now, ReconstructClosed(a, deals, now).entry)
    ensures FirstOpen(deals).None? && deals != [] ==>
      var e := ReconstructClosed(a, deals, now).entry;
      && e.symbol == a.symbolName(deals[0].symbolId) && (deals[0].buy <==> e.side == "SELL")
      && e.quantity * 10000.0 == FilledVolume(deals) as real
      && e.entryDate == if deals[0].created > 0 then deals[0].created else now
  {
    FirstOpenIsFirst(deals);
    if FirstOpen(deals).None? { AllClosing(deals); }
  }

  lemma {:induction false} AllClosing(deals: seq<Deal>)
    requires FirstOpen(deals).None?
    ensures Closing(deals) == deals
    decreases |deals|
  {
    if deals != [] {
      AllClosing(deals[1..]);
      assert deals == [deals[0]] + deals[1..];
    }
  }

  // ---- applying it ----

  predicate DistinctIds(ws: seq<Write>) {
    forall i, j :: 0 <= i < j < |ws| ==> ws[i].positionId != ws[j].positionId
  }

  lemma {:induction false} DealWritesDistinct(a: Account, open: Option<seq<OpenPosition>>, ds: seq<PositionDeal>,
      ids: seq<string>, now: int)
    requires Grouping.Distinct(ids)
    ensures DistinctIds(DealWrites(a, open, ds, ids, now))
    decreases |ids|
  {
    if ids != [] {
      var n := |ids| - 1;
      DealWritesDistinct(a, open, ds, ids[..n], now);
      var ws := DealWrites(a, open, ds, ids[..n], now);
      DealWritesExactly(a, open, ds, ids[..n], now);
      forall i | 0 <= i < |ws| ensures ws[i].positionId != ids[n] { assert ws[i] in ws; }
    }
  }

  lemma {:induction false} OpenWritesIds(a: Account, ps: seq<OpenPosition>, ids: seq<string>, now: int)
    requires forall id :: id in ids ==> id in Grouping.KeysOf(ps, PositionKey)
    ensures |OpenWrites(a, ps, ids, now)| == |ids|
    ensures forall i :: 0 <= i < |ids| ==> OpenWrites(a, ps, ids, now)[i].positionId == ids[i]
    decreases |ids|
  {
    if ids != [] { OpenWritesIds(a, ps, ids[..|ids| - 1], now); }
  }

  /** A run writes no position twice. */
  lemma NoPositionTwice(a: Account, open: Option<seq<OpenPosition>>, ds: seq<PositionDeal>, now: int)
    ensures DistinctIds(Plan(a, open, ds, now))
  {
    var ids := Grouping.KeysOf(ds, DealKey);
    Grouping.KeysDistinct(ds, DealKey);
    DealWritesDistinct(a, open, ds, ids, now);
    if open.Some? {
      var ps := open.value;
      var opens := Grouping.KeysOf(ps, PositionKey);
      Grouping.KeysDistinct(ps, PositionKey);
      OpenWritesIds(a, ps, opens, now);
      DealsNotOpen(a, ps, ds, now);
      DistinctConcat(DealWrites(a, open, ds, ids, now), OpenWrites(a, ps, opens, now), opens);
    }
  }

  /** A position of the open set is never written from deals. */
  lemma DealsNotOpen(a: Account, ps: seq<OpenPosition>, ds: seq<PositionDeal>, now: int)
    ensures forall w :: w in DealWrites(a, Some(ps), ds, Grouping.KeysOf(ds, DealKey), now) ==>
              w.positionId !in Grouping.KeysOf(ps, PositionKey)
  {
    DealWritesExactly(a, Some(ps), ds, Grouping.KeysOf(ds, DealKey), now);
  }

  lemma DistinctConcat(xs: seq<Write>, ys: seq<Write>, ids: seq<string>)
    requires DistinctIds(xs) && Grouping.Distinct(ids) && |ys| == |ids|
    requires forall j :: 0 <= j < |ys| ==> ys[j].positionId == ids[j]
    requires forall w :: w in xs ==> w.positionId !in ids
    ensures DistinctIds(xs + ys)
  {
    forall i, j | 0 <= i < |xs| && 0 <= j < |ys| ensures xs[i].positionId != ys[j].positionId {
      assert xs[i] in xs && ids[j] in ids;
    }
  }

  type RowWriter = (Option<Row>, BackfillPosition) -> Row

  /** The trade writer's backfill write. */
  function BackfillWriter(nominal: real): RowWriter {
    (row: Option<Row>, p: BackfillPosition) => WriteBackfill(row, nominal, p)
  }

  /** The table after a list of writes. */
  function Applied(rows: Table, write: RowWriter, ws: seq<Write>): Table
    decreases |ws|
  {
    if ws == [] then rows
    else
      var before := Applied(rows, write, ws[..|ws| - 1]);
      var w := ws[|ws| - 1];
      before[w.positionId := write(Find(before, w.positionId), w.position)]
  }

  /** With distinct ids every row written is written once, from what it held; the others do not move. */
  lemma {:induction false} AppliedAt(rows: Table, write: RowWriter, ws: seq<Write>, id: string)
    requires DistinctIds(ws)
    ensures forall w :: w in ws && w.positionId == id ==>
              Find(Applied(rows, write, ws), id) == Some(write(Find(rows, id), w.position))
    ensures (forall w :: w in ws ==> w.positionId != id) ==> Find(Applied(rows, write, ws), id) == Find(rows, id)
    decreases |ws|
  {
    if ws != [] {
      var n := |ws| - 1;
      AppliedAt(rows, write, ws[..n], id);
      assert ws == ws[..n] + [ws[n]];
      if ws[n].positionId == id {
        forall w | w in ws[..n] ensures w.positionId != id {
          var i :| 0 <= i < n && ws[i] == w;
        }
      }
    }
  }

  lemma WriteBackfillIdempotent(row: Option<Row>, nominal: real, p: BackfillPosition)
    ensures WriteBackfill(Some(WriteBackfill(row, nominal, p)), nominal, p) == WriteBackfill(row, nominal, p)
  {
  }

  lemma SameTable(x: Table, y: Table)
    requires forall id :: Find(x, id) == Find(y, id)
    ensures x == y
  {
    forall id ensures (id in x <==> id in y) && (id in x ==> x[id] == y[id]) {
      assert Find(x, id) == Find(y, id);
    }
  }

  /** The writes that do not fail. */
  function Successes(ws: seq<Write>, failing: set<string>): (r: seq<Write>)
    ensures forall w :: w in r <==> w in ws && w.positionId !in failing
    decreases |ws|
  {
    if ws == [] then []
    else
      var n := |ws| - 1;
      assert ws == ws[..n] + [ws[n]];
      Successes(ws[..n], failing) + if ws[n].positionId in failing then [] else [ws[n]]
  }

  lemma AddOne(rows: Table, write: RowWriter, ws: seq<Write>, w: Write, failing: set<string>)
    ensures w.positionId in failing ==> Successes(ws + [w], failing) == Successes(ws, failing)
    ensures w.positionId !in failing ==> Successes(ws + [w], failing) == Successes(ws, failing) + [w]
    ensures w.positionId !in failing ==>
      var before := Applied(rows, write, Successes(ws, failing));
      Applied(rows, write, Successes(ws + [w], failing)) ==
          before[w.positionId := write(Find(before, w.positionId), w.position)]
  {
    assert (ws + [w])[..|ws|] == ws;
    AppliedSnoc(rows, write, Successes(ws, failing), w);
  }

  lemma AppliedSnoc(rows: Table, write: RowWriter, ws: seq<Write>, w: Write)
    ensures Applied(rows, write, ws + [w])
            == Applied(rows, write, ws)[w.positionId := write(Find(Applied(rows, write, ws), w.positionId), w.position)]
  {
    assert (ws + [w])[..|ws|] == ws;
  }

  lemma {:induction false} SuccessesDistinct(ws: seq<Write>, failing: set<string>)
    requires DistinctIds(ws)
    ensures DistinctIds(Successes(ws, failing))
    decreases |ws|
  {
    if ws != [] {
      var n := |ws| - 1;
      var kept := Successes(ws[..n], failing);
      SuccessesDistinct(ws[..n], failing);
      forall i | 0 <= i < |kept| ensures kept[i].positionId != ws[n].positionId {
        assert kept[i] in ws[..n];
        var j :| 0 <= j < n && ws[j] == kept[i];
      }
    }
  }

  /**
   * A backfill repeated over the same deals after one whose writes partly failed leaves the table of a backfill
   * that never failed; so repeating it changes nothing. No closed trade is reopened, and a trade the run does not
   * mention keeps its row.
   */
  lemma RetryConverges(a: Account, open: Option<seq<OpenPosition>>, ds: seq<PositionDeal>, now: int, rows: Table,
      failing: set<string>)
    ensures var plan := Plan(a, open, ds, now);
      var partial, full := Applied(rows, BackfillWriter(a.nominal), Successes(plan, failing)),
          Applied(rows, BackfillWriter(a.nominal), plan);
      && Applied(partial, BackfillWriter(a.nominal), plan) == full
      && (forall id :: id in rows && rows[id].exitDate.Some? ==> id in partial && partial[id].exitDate.Some?)
      && (forall id :: (forall w :: w in plan ==> w.positionId != id) ==> Find(partial, id) == Find(rows, id))
  {
    var plan := Plan(a, open, ds, now);
    NoPositionTwice(a, open, ds, now);
    forall row, p ensures BackfillWriter(a.nominal)(Some(BackfillWriter(a.nominal)(row, p)), p) ==
        BackfillWriter(a.nominal)(row, p) {
      WriteBackfillIdempotent(row, a.nominal, p);
    }
    forall row, w | w in plan && IsClosed(row) ensures BackfillWriter(a.nominal)(row, w.position).exitDate.Some? {
      ClosedCarriesDate(a, open, ds, now, w);
    }
    RetryOf(rows, BackfillWriter(a.nominal), plan, failing);
  }

  /** Writing a position again changes nothing. */
  ghost predicate Idempotent(write: RowWriter) {
    forall row, p :: write(Some(write(row, p)), p) == write(row, p)
  }

  ghost predicate KeepsClosed(write: RowWriter, ws: seq<Write>) {
    forall row, w :: w in ws && IsClosed(row) ==> write(row, w.position).exitDate.Some?
  }

  lemma RetryOf(rows: Table, write: RowWriter, ws: seq<Write>, failing: set<string>)
    requires DistinctIds(ws) && Idempotent(write) && KeepsClosed(write, ws)
    ensures var partial := Applied(rows, write, Successes(ws, failing));
      && Applied(partial, write, ws) == Applied(rows, write, ws)
      && (forall id :: id in rows && rows[id].exitDate.Some? ==> id in partial && partial[id].exitDate.Some?)
      && (forall id :: (forall w :: w in ws ==> w.positionId != id) ==> Find(partial, id) == Find(rows, id))
  {
    var kept := Successes(ws, failing);
    var partial, full := Applied(rows, write, kept), Applied(rows, write, ws);
    var again := Applied(partial, write, ws);
    SuccessesDistinct(ws, failing);
    forall id ensures Find(again, id) == Find(full, id)
      ensures (forall w :: w in ws ==> w.positionId != id) ==> Find(partial, id) == Find(rows, id)
      ensures id in rows && rows[id].exitDate.Some? ==> id in partial && partial[id].exitDate.Some?
    {
      AppliedAt(rows, write, kept, id);
      AppliedAt(rows, write, ws, id);
      AppliedAt(partial, write, ws, id);
      assert Find(rows, id).Some? && rows[id].exitDate.Some? ==> IsClosed(Find(rows, id));
      if w :| w in ws && w.positionId == id {
        if id in failing { assert forall x :: x in kept ==> x.positionId != id; } else { assert w in kept; }
      }
    }
    SameTable(again, full);
  }

  lemma ClosedCarriesDate(a: Account, open: Option<seq<OpenPosition>>, ds: seq<PositionDeal>, now: int, w: Write)
    requires w in Plan(a, open, ds, now)
    ensures w.position.fullyClosed <==> w.position.exitDate.Some?
  {
    DealWritesExactly(a, open, ds, Grouping.KeysOf(ds, DealKey), now);
    if open.Some? { OpenWritesExactly(a, open.value, Grouping.KeysOf(open.value, PositionKey), now); }
  }

  // ---- the run itself ----

  class BackfillService {
    const account: Account
    const writer: CtraderTradeWriter

    constructor (account: Account, writer: CtraderTradeWriter)
      requires writer.nominal == account.nominal
      ensures this.account == account && this.writer == writer
    {
      this.account, this.writer := account, writer;
    }

    /**
     * Deals first, then the open positions; `open` and `raw` are what the broker answered, and a failed
     * write is logged and passed over. Returns how many positions were written.
     */
    method Run(open: Option<seq<OpenPosition>>, raw: seq<PositionDeal>, now: int, failing: set<string>)
        returns (written: nat)
      requires writer.nominal == account.nominal
      modifies writer`rows
      ensures var ps := if open.Some? then Some(NamedPositions(open.value)) else None;
        var ws := Successes(Plan(account, ps, NamedDeals(raw), now), failing);
        writer.rows == Applied(old(writer.rows), BackfillWriter(account.nominal), ws) && written == |ws|
    {
      var ds := NamedDeals(raw);
      var ps := if open.Some? then Some(NamedPositions(open.value)) else None;
      var order, groups := Grouping.Group(ds, DealKey);
      ghost var before := writer.rows;
      written := WriteDeals(ps, ds, order, groups, now, failing);
      ghost var done := DealWrites(account, ps, ds, order, now);
      if ps.Some? {
        var opens, _ := Grouping.Group(ps.value, PositionKey);
        var more := WriteOpens(ps.value, opens, before, done, now, failing);
        written := written + more;
      } else {
        assert done + [] == done;
      }
    }

    method WriteOne(w: Write, failing: set<string>, ghost before: Table, ghost ws: seq<Write>) returns (written: nat)
      requires writer.nominal == account.nominal
      requires writer.rows == Applied(before, BackfillWriter(account.nominal), Successes(ws, failing))
      modifies writer`rows
      ensures writer.rows == Applied(before, BackfillWriter(account.nominal), Successes(ws + [w], failing))
      ensures |Successes(ws, failing)| + written == |Successes(ws + [w], failing)|
    {
      AddOne(before, BackfillWriter(account.nominal), ws, w, failing);
      written := 0;
      if w.positionId !in failing {
        writer.BackfillPositionRow(w.positionId, w.position);
        written := 1;
      }
    }

    method WriteDeals(ps: Option<seq<OpenPosition>>, ds: seq<PositionDeal>, order: seq<string>,
        groups: map<string, seq<PositionDeal>>, now: int, failing: set<string>) returns (written: nat)
      requires writer.nominal == account.nominal
      requires order == Grouping.KeysOf(ds, DealKey) && Grouping.Grouped(groups, ds, DealKey)
      modifies writer`rows
      ensures var ws := Successes(DealWrites(account, ps, ds, order, now), failing);
        writer.rows == Applied(old(writer.rows), BackfillWriter(account.nominal), ws) && written == |ws|
    {
      ghost var before := writer.rows;
      ghost var done: seq<Write> := [];
      written := 0;
      for i := 0 to |order|
        invariant done == DealWrites(account, ps, ds, order[..i], now)
        invariant writer.rows == Applied(before, BackfillWriter(account.nominal), Successes(done, failing))
        invariant written == |Successes(done, failing)|
      {
        var id := order[i];
        GroupedDeals(groups, ds, order, i);
        NextDeal(account, ps, ds, order, i, now);
        var position := Decide(account, ps, id, Bare(groups[id]), now);
        if position.Some? {
          var one := WriteOne(Write(id, position.value), failing, before, done);
          written := written + one;
          done := done + [Write(id, position.value)];
        }
      }
      assert order[..|order|] == order;
    }

    method WriteOpens(ps: seq<OpenPosition>, opens: seq<string>, ghost before: Table, ghost done: seq<Write>, now: int,
        failing: set<string>) returns (written: nat)
      requires writer.nominal == account.nominal
      requires forall id :: id in opens ==> id in Grouping.KeysOf(ps, PositionKey)
      requires writer.rows == Applied(before, BackfillWriter(account.nominal), Successes(done, failing))
      modifies writer`rows
      ensures var ws := Successes(done + OpenWrites(account, ps, opens, now), failing);
        writer.rows == Applied(before, BackfillWriter(account.nominal), ws)
            && |Successes(done, failing)| + written == |ws|
    {
      ghost var ws := done;
      written := 0;
      for i := 0 to |opens|
        invariant ws == done + OpenWrites(account, ps, opens[..i], now)
        invariant writer.rows == Applied(before, BackfillWriter(account.nominal), Successes(ws, failing))
        invariant |Successes(done, failing)| + written == |Successes(ws, failing)|
      {
        assert opens[i] in opens;
        var w := Write(opens[i], MapOpen(account, LastOf(ps, opens[i]), now));
        NextOpen(account, ps, opens, i, now, done);
        var one := WriteOne(w, failing, before, ws);
        ws := ws + [w];
        written := written + one;
      }
      assert opens[..|opens|] == opens;
    }
  }

  lemma GroupedDeals(groups: map<string, seq<PositionDeal>>, ds: seq<PositionDeal>, order: seq<string>, i: nat)
    requires order == Grouping.KeysOf(ds, DealKey) && Grouping.Grouped(groups, ds, DealKey) && i < |order|
    ensures order[i] in groups && Bare(groups[order[i]]) == DealsFor(ds, order[i])
  {
    assert order[i] in order;
    Grouping.GroupOf(groups, ds, DealKey, order[i]);
  }

  lemma NextDeal(a: Account, open: Option<seq<OpenPosition>>, ds: seq<PositionDeal>, order: seq<string>, i: nat,
      now: int)
    requires i < |order|
    ensures var w := Decide(a, open, order[i], DealsFor(ds, order[i]), now);
      DealWrites(a, open, ds, order[..i + 1], now)
      == DealWrites(a, open, ds, order[..i], now) + if w.Some? then [Write(order[i], w.value)] else []
  {
    assert order[..i + 1][..i] == order[..i];
  }

  lemma NextOpen(a: Account, ps: seq<OpenPosition>, opens: seq<string>, i: nat, now: int, done: seq<Write>)
    requires (forall id :: id in opens ==> id in Grouping.KeysOf(ps, PositionKey)) && i < |opens|
    ensures done + OpenWrites(a, ps, opens[..i + 1], now)
            == done + OpenWrites(a, ps, opens[..i], now) + [Write(opens[i], MapOpen(a, LastOf(ps, opens[i]), now))]
  {
    assert opens[..i + 1][..i] == opens[..i];
  }
}
