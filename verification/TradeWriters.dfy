/**
 * What the three trade writers make of a Trade row: one row per position, `None` for a null column.
 * Each operation is the row a writer computes from the row it read; a task runs them one at a time.
 */
module TradeWriters {
  import opened Common
  import opened Metrics

  datatype Row = Row(
    symbol: string,
    side: string,
    quantity: real,
    entryDate: int,
    exitDate: Option<int>,
    profit: Option<real>,
    grossProfit: Option<real>,
    commission: Option<real>,
    swap: Option<real>,
    pnl: Option<real>,
    profitPercentage: Option<real>,
    rr: Option<real>,
    result: Option<TradeResult>,
    risk: Option<real>)

  datatype Entry = Entry(symbol: string, side: string, quantity: real, entryDate: int)

  function OrElse<T>(x: Option<T>, y: T): T {
    if x.Some? then x.value else y
  }

  /** A column whose new value is `undefined` keeps the stored one. */
  function Keep<T>(x: Option<T>, stored: Option<T>): Option<T> {
    if x.Some? then x else stored
  }

  function NewRow(e: Entry): Row {
    Row(e.symbol, e.side, e.quantity, e.entryDate, None, None, None, None, None, None, None, None, None,
        Some(DEFAULT_RISK))
  }

  function Base(existing: Option<Row>, e: Entry): Row {
    if existing.Some? then existing.value else NewRow(e)
  }

  function RiskOf(existing: Option<Row>): real {
    if existing.Some? then OrElse(existing.value.risk, DEFAULT_RISK) else DEFAULT_RISK
  }

  /** The open side: create the row, or refresh its entry data only. */
  function UpsertOpen(existing: Option<Row>, e: Entry): Row {
    Base(existing, e).(symbol := e.symbol, side := e.side, quantity := e.quantity, entryDate := e.entryDate)
  }

  /** The realized columns every closing write SETs; percentage and R come from `basis`. */
  function SetRealized(base: Row, risk: real, nominal: real, gross: real, commission: real, swap: real, pnl: real,
      basis: real, exitDate: Option<int>, result: Option<TradeResult>): Row {
    var pct := ProfitPercentage(basis, nominal);
    var rr := TradeRr(basis, pct, nominal, risk);
    base.(exitDate := exitDate, profit := Some(basis), grossProfit := Some(gross), commission := Some(commission),
          swap := Some(swap), pnl := Some(pnl), profitPercentage := Keep(pct, base.profitPercentage),
          rr := Keep(rr, base.rr), result := result, risk := Some(risk))
  }

  // ---- cTrader ----

  /** One closing deal, already in account currency. */
  datatype CloseFill = CloseFill(
    entry: Entry, exitDate: int, gross: real, commission: real, swap: real, fullyClosed: bool)

  /** Add one closing deal to whatever the row has. */
  function ApplyClose(existing: Option<Row>, nominal: real, t: CloseFill): Row {
    var before := Base(existing, t.entry);
    var gross := RoundMoney(OrElse(before.grossProfit, 0.0) + t.gross);
    var commission := RoundMoney(OrElse(before.commission, 0.0) + t.commission);
    var swap := RoundMoney(OrElse(before.swap, 0.0) + t.swap);
    var pnl := RoundMoney(gross + commission + swap);
    SetRealized(before.(symbol := t.entry.symbol, side := t.entry.side), RiskOf(existing), nominal, gross, commission,
                swap, pnl, gross, if t.fullyClosed then Some(t.exitDate) else None,
                if t.fullyClosed then Some(GetTradeResult(pnl, nominal)) else None)
  }

  /** A position reconstructed from history. */
  datatype BackfillPosition = BackfillPosition(
    entry: Entry, fullyClosed: bool, exitDate: Option<int>, gross: real, commission: real, swap: real)

  function WriteBackfill(existing: Option<Row>, nominal: real, p: BackfillPosition): Row {
    if !p.fullyClosed then UpsertOpen(existing, p.entry)
    else
      var gross, commission, swap := RoundMoney(p.gross), RoundMoney(p.commission), RoundMoney(p.swap);
      var pnl := RoundMoney(gross + commission + swap);
      SetRealized(Base(existing, p.entry).(symbol := p.entry.symbol, side := p.entry.side), RiskOf(existing), nominal,
                  gross, commission, swap, pnl, gross, p.exitDate, Some(GetTradeResult(pnl, nominal)))
  }

  // ---- TradeLocker and MetaApi ----

  datatype Broker = TradeLocker | MetaApi

  /** A fully realized trade; `net` is TradeLocker's native net figure, when reported. */
  datatype Closed = Closed(entry: Entry, exitDate: int, gross: real, commission: real, swap: real, net: Option<real>)

  /** TradeLocker books the net figure as profit and derives %/R from it; MetaApi uses the gross one. */
  function WriteClosed(b: Broker, existing: Option<Row>, nominal: real, c: Closed): Row {
    var gross, commission, swap := RoundMoney(c.gross), RoundMoney(c.commission), RoundMoney(c.swap);
    var sum := gross + commission + swap;
    var pnl := RoundMoney(if b == TradeLocker then OrElse(c.net, sum) else sum);
    SetRealized(UpsertOpen(existing, c.entry), RiskOf(existing), nominal, gross, commission, swap, pnl,
                if b == TradeLocker then pnl else gross, Some(c.exitDate), Some(GetTradeResult(pnl, nominal)))
  }

  /** Update-only: never creates a row and never touches a closed one. */
  function WriteUnrealized(existing: Option<Row>, nominal: real, unrealized: real): Option<Row> {
    if existing.None? || existing.value.exitDate.Some? then None
    else
      var risk := RiskOf(existing);
      var pct := ProfitPercentage(unrealized, nominal);
      Some(existing.value.(pnl := Some(unrealized), profitPercentage := pct,
                           rr := TradeRr(unrealized, pct, nominal, risk), risk := Some(risk)))
  }

  // ---- sequences of writes to one position ----

  /** `SetRisk` is the user's edit between two tasks. */
  datatype Op =
    | OpenOp(entry: Entry)
    | UnrealizedOp(amount: real)
    | ClosedOp(closed: Closed)
    | DealOp(fill: CloseFill)
    | BackfillOp(position: BackfillPosition)
    | SetRisk(risk: real)

  predicate OpOf(b: Option<Broker>, op: Op) {
    match op
    case OpenOp(_) => true
    case SetRisk(_) => true
    case UnrealizedOp(_) => b.Some?
    case ClosedOp(_) => b.Some?
    case DealOp(_) => b.None?
    case BackfillOp(_) => b.None?
  }

  /** The row after one operation; broker `None` is cTrader. */
  function Apply(b: Option<Broker>, nominal: real, row: Option<Row>, op: Op): Option<Row> {
    match op
    case OpenOp(e) => Some(UpsertOpen(row, e))
    case UnrealizedOp(x) => var r := WriteUnrealized(row, nominal, x); if r.Some? then r else row
    case ClosedOp(c) => Some(WriteClosed(if b.Some? then b.value else MetaApi, row, nominal, c))
    case DealOp(t) => Some(ApplyClose(row, nominal, t))
    case BackfillOp(p) => Some(WriteBackfill(row, nominal, p))
    case SetRisk(r) => if row.Some? then Some(row.value.(risk := Some(r))) else row
  }

  function ApplyAll(b: Option<Broker>, nominal: real, row: Option<Row>, ops: seq<Op>): Option<Row>
    decreases |ops|
  {
    if ops == [] then row else ApplyAll(b, nominal, Apply(b, nominal, row, ops[0]), ops[1..])
  }

  predicate IsClosed(row: Option<Row>) {
    row.Some? && row.value.exitDate.Some?
  }

  /** Over any writes of TradeLocker or MetaApi, a closed row stays closed, and only closing writes move its pnl. */
  lemma {:induction false} ClosedStaysClosed(b: Broker, nominal: real, row: Option<Row>, ops: seq<Op>)
    requires IsClosed(row) && forall op :: op in ops ==> OpOf(Some(b), op)
    ensures IsClosed(ApplyAll(Some(b), nominal, row, ops))
    ensures (forall op :: op in ops ==> !op.ClosedOp?) ==>
      ApplyAll(Some(b), nominal, row, ops).value.pnl == row.value.pnl
      && ApplyAll(Some(b), nominal, row, ops).value.exitDate == row.value.exitDate
    decreases |ops|
  {
    if ops != [] {
      assert ops[0] in ops;
      ClosedStaysClosed(b, nominal, Apply(Some(b), nominal, row, ops[0]), ops[1..]);
    }
  }

  /** The last floating amount of a sequence of writes, or the one there was. */
  function LastFloat(pnl: Option<real>, ops: seq<Op>): Option<real>
    decreases |ops|
  {
    if ops == [] then pnl else LastFloat(if ops[0].UnrealizedOp? then Some(ops[0].amount) else pnl, ops[1..])
  }

  /** While a row is open it shows the last floating amount, and its realized money does not move. */
  lemma {:induction false} OpenRowFloats(b: Broker, nominal: real, row: Row, ops: seq<Op>)
    requires row.exitDate.None? && forall op :: op in ops ==> op.OpenOp? || op.UnrealizedOp?
    ensures ApplyAll(Some(b), nominal, Some(row), ops).Some?
    ensures var r := ApplyAll(Some(b), nominal, Some(row), ops).value;
      && r.pnl == LastFloat(row.pnl, ops) && r.exitDate.None? && r.result == row.result
      && r.profit == row.profit && r.grossProfit == row.grossProfit && r.commission == row.commission
      && r.swap == row.swap
    decreases |ops|
  {
    if ops != [] {
      assert ops[0] in ops;
      OpenRowFloats(b, nominal, Apply(Some(b), nominal, Some(row), ops[0]).value, ops[1..]);
    }
  }

  /** A floating update writes the percentage and the R-multiple of its amount, and nothing else but the risk. */
  lemma FloatExactly(b: Broker, nominal: real, row: Option<Row>, amount: real)
    ensures var after := Apply(Some(b), nominal, row, UnrealizedOp(amount));
      if row.None? || row.value.exitDate.Some? then after == row
      else
        after == Some(row.value.(pnl := Some(amount), risk := Some(OrElse(row.value.risk, DEFAULT_RISK)),
          profitPercentage := ProfitPercentage(amount, nominal),
          rr := TradeRr(amount, ProfitPercentage(amount, nominal), nominal, OrElse(row.value.risk, DEFAULT_RISK))))
  {
  }

  /** An opening write sets the entry data and nothing else; a new row has nothing but it and the default risk. */
  lemma OpenExactly(b: Option<Broker>, nominal: real, row: Option<Row>, e: Entry)
    ensures Apply(b, nominal, row, OpenOp(e)).Some?
    ensures var r := Apply(b, nominal, row, OpenOp(e)).value;
      && r.symbol == e.symbol && r.side == e.side && r.quantity == e.quantity && r.entryDate == e.entryDate
      && r.exitDate == (if row.Some? then row.value.exitDate else None)
      && r.pnl == (if row.Some? then row.value.pnl else None)
      && r.grossProfit == (if row.Some? then row.value.grossProfit else None)
      && r.profit == (if row.Some? then row.value.profit else None)
      && r.commission == (if row.Some? then row.value.commission else None)
      && r.swap == (if row.Some? then row.value.swap else None)
      && r.result == (if row.Some? then row.value.result else None)
      && r.profitPercentage == (if row.Some? then row.value.profitPercentage else None)
      && r.rr == (if row.Some? then row.value.rr else None)
      && r.risk == (if row.Some? then row.value.risk else Some(DEFAULT_RISK))
  {
  }

  /** For cTrader a write clears a set exit date exactly when it is a partial close. */
  lemma ReopenedExactlyByPartialClose(nominal: real, row: Option<Row>, op: Op)
    requires IsClosed(row) && OpOf(None, op)
    requires op.BackfillOp? && op.position.fullyClosed ==> op.position.exitDate.Some?
    ensures !IsClosed(Apply(None, nominal, row, op)) <==> op.DealOp? && !op.fill.fullyClosed
  {
  }

  /** What the last write that settles the exit date made of it, if any did. */
  function Verdict(ops: seq<Op>): Option<bool>
    decreases |ops|
  {
    if ops == [] then None
    else
      var op := ops[|ops| - 1];
      if op.DealOp? then Some(op.fill.fullyClosed)
      else if op.BackfillOp? && op.position.fullyClosed then Some(op.position.exitDate.Some?)
      else Verdict(ops[..|ops| - 1])
  }

  lemma {:induction false} ApplyAllSnoc(b: Option<Broker>, nominal: real, row: Option<Row>, ops: seq<Op>, op: Op)
    ensures ApplyAll(b, nominal, row, ops + [op]) == Apply(b, nominal, ApplyAll(b, nominal, row, ops), op)
    decreases |ops|
  {
    if ops == [] {
      assert ([] + [op])[1..] == [];
      assert ApplyAll(b, nominal, Apply(b, nominal, row, op), []) == Apply(b, nominal, row, op);
      assert [] + [op] == [op];
    } else {
      assert (ops + [op])[1..] == ops[1..] + [op];
      ApplyAllSnoc(b, nominal, Apply(b, nominal, row, ops[0]), ops[1..], op);
    }
  }

  /**
   * After any sequence of cTrader writes a row is closed if and only if the last closing deal, or closed
   * backfill, closed it for good; with none of them, if it was closed before.
   */
  lemma {:induction false} CtraderClosedExactly(nominal: real, row: Option<Row>, ops: seq<Op>)
    requires forall op :: op in ops ==> OpOf(None, op)
    ensures IsClosed(ApplyAll(None, nominal, row, ops)) <==>
              match Verdict(ops) case Some(closed) => closed case None => IsClosed(row)
    decreases |ops|
  {
    if ops != [] {
      var n := |ops| - 1;
      assert ops == ops[..n] + [ops[n]];
      CtraderClosedExactly(nominal, row, ops[..n]);
      ApplyAllSnoc(None, nominal, row, ops[..n], ops[n]);
      assert ops[n] in ops;
    }
  }

  /** So over a whole sequence a closed cTrader row stays closed when no partial close follows. */
  lemma {:induction false} CtraderStaysClosed(nominal: real, row: Option<Row>, ops: seq<Op>)
    requires IsClosed(row)
    requires forall op :: op in ops ==> OpOf(None, op)
    requires forall op :: op in ops && op.DealOp? ==> op.fill.fullyClosed
    requires forall op :: op in ops && op.BackfillOp? && op.position.fullyClosed ==> op.position.exitDate.Some?
    ensures IsClosed(ApplyAll(None, nominal, row, ops))
    decreases |ops|
  {
    if ops != [] {
      assert ops[0] in ops;
      ReopenedExactlyByPartialClose(nominal, row, ops[0]);
      CtraderStaysClosed(nominal, Apply(None, nominal, row, ops[0]), ops[1..]);
    }
  }

  /** The last risk the user set, or the one the row had. */
  function LastRisk(r: real, ops: seq<Op>): real
    decreases |ops|
  {
    if ops == [] then r else LastRisk(if ops[0].SetRisk? then ops[0].risk else r, ops[1..])
  }

  /** A risk percentage the user set survives every write of every broker. */
  lemma {:induction false} RiskSurvives(b: Option<Broker>, nominal: real, row: Row, r: real, ops: seq<Op>)
    requires row.risk == Some(r)
    ensures ApplyAll(b, nominal, Some(row), ops).Some?
    ensures ApplyAll(b, nominal, Some(row), ops).value.risk == Some(LastRisk(r, ops))
    decreases |ops|
  {
    if ops != [] {
      var next := Apply(b, nominal, Some(row), ops[0]);
      RiskSurvives(b, nominal, next.value, if ops[0].SetRisk? then ops[0].risk else r, ops[1..]);
    }
  }

  /** Of two finalizations only the last shows, whatever the row held and the account is. */
  lemma LastCloseWins(b: Broker, nominal: real, row: Option<Row>, earlier: Closed, last: Closed)
    ensures WriteClosed(b, Some(WriteClosed(b, row, nominal, earlier)), nominal, last) ==
        WriteClosed(b, row, nominal, last)
  {
  }

  /** A floating update of this row clears nothing that a finalization could not compute again. */
  predicate Recomputable(nominal: real, row: Option<Row>) {
    row.None? || row.value.exitDate.Some?
    || ((nominal > 0.0 || row.value.profitPercentage.None?)
        && ((nominal > 0.0 && RiskOf(row) > 0.0) || row.value.rr.None?))
  }

  /** A finalization forgets a floating update exactly when that cleared nothing it cannot compute again. */
  lemma FloatThenClose(b: Broker, nominal: real, row: Option<Row>, amount: real, last: Closed)
    ensures var floated := Apply(Some(b), nominal, row, UnrealizedOp(amount));
      && (WriteClosed(b, floated, nominal, last) == WriteClosed(b, row, nominal, last) <==> Recomputable(nominal, row))
      && Recomputable(nominal, floated)
  {
    var basis := WriteClosed(b, row, nominal, last).profit.value;
    RrComputable(basis, nominal, RiskOf(row));
    RrComputable(amount, nominal, RiskOf(row));
  }

  /** Some floating update comes before the first finalization. */
  predicate FloatsOpen(ops: seq<Op>)
    decreases |ops|
  {
    ops != [] && !ops[0].ClosedOp? && (ops[0].UnrealizedOp? || FloatsOpen(ops[1..]))
  }

  /**
   * Finalizations set absolute totals: after any opens, floating updates and finalizations of a position, one
   * more leaves the row it would have left straight away, unless an open row was floated and lost a percentage
   * or an R-multiple that cannot be computed again.
   */
  lemma {:induction false} FinalizationForgets(b: Broker, nominal: real, row: Option<Row>, ops: seq<Op>, last: Closed)
    requires forall op :: op in ops ==> OpOf(Some(b), op) && !op.SetRisk?
    ensures var after := ApplyAll(Some(b), nominal, row, ops);
      WriteClosed(b, after, nominal, last) == WriteClosed(b, row, nominal, last) <==>
        Recomputable(nominal, row) || !FloatsOpen(ops)
    decreases |ops|
  {
    if ops != [] {
      assert ops[0] in ops;
      FinalizationForgets(b, nominal, Apply(Some(b), nominal, row, ops[0]), ops[1..], last);
      match ops[0]
      case OpenOp(e) => OpenThenClose(b, nominal, row, e, last);
      case UnrealizedOp(x) => FloatThenClose(b, nominal, row, x, last);
      case ClosedOp(c) => LastCloseWins(b, nominal, row, c, last);
    }
  }

  /** A percentage kept for an account of unknown size is lost to one floating update, whatever closes the trade. */
  lemma FloatLosesPercentage(b: Broker, e: Entry, last: Closed)
    ensures var row := Some(NewRow(e).(profitPercentage := Some(2.0)));
      WriteClosed(b, ApplyAll(Some(b), 0.0, row, [UnrealizedOp(1.0)]), 0.0, last) != WriteClosed(b, row, 0.0, last)
  {
    FinalizationForgets(b, 0.0, Some(NewRow(e).(profitPercentage := Some(2.0))), [UnrealizedOp(1.0)], last);
  }

  lemma OpenThenClose(b: Broker, nominal: real, row: Option<Row>, e: Entry, last: Closed)
    ensures WriteClosed(b, Some(UpsertOpen(row, e)), nominal, last) == WriteClosed(b, row, nominal, last)
    ensures Recomputable(nominal, Some(UpsertOpen(row, e))) <==> Recomputable(nominal, row)
  {
  }

  /** A closed position as the cTrader backfill carries it. */
  function AsBackfill(c: Closed): BackfillPosition {
    BackfillPosition(c.entry, true, Some(c.exitDate), c.gross, c.commission, c.swap)
  }

  /**
   * The same fill reads the same whichever terminal imported it. On any row, or none, MetaApi writes what cTrader
   * would, but for refreshing the quantity and the entry date too; and TradeLocker what MetaApi would if and only
   * if the net figure it books and the sum of the amounts both round to the gross.
   */
  lemma SameFillSameRow(nominal: real, row: Option<Row>, c: Closed)
    ensures WriteClosed(MetaApi, row, nominal, c) ==
              WriteBackfill(row, nominal, AsBackfill(c)).(quantity := c.entry.quantity, entryDate := c.entry.entryDate)
    ensures var gross := RoundMoney(c.gross);
      var sum := gross + RoundMoney(c.commission) + RoundMoney(c.swap);
      WriteClosed(TradeLocker, row, nominal, c) == WriteClosed(MetaApi, row, nominal, c) <==>
        RoundMoney(OrElse(c.net, sum)) == gross && RoundMoney(sum) == gross
  {
    var gross := RoundMoney(c.gross);
    var sum := gross + RoundMoney(c.commission) + RoundMoney(c.swap);
    var x, y := WriteClosed(TradeLocker, row, nominal, c), WriteClosed(MetaApi, row, nominal, c);
    assert x.profit == Some(RoundMoney(OrElse(c.net, sum))) && y.profit == Some(gross);
    assert x.pnl == Some(RoundMoney(OrElse(c.net, sum))) && y.pnl == Some(RoundMoney(sum));
  }

  // ---- the writers ----

  type Table = map<string, Row>

  function Find(rows: Table, id: string): Option<Row> {
    if id in rows then Some(rows[id]) else None
  }

  class CtraderTradeWriter {
    const nominal: real
    var rows: Table

    constructor (nominal: real, rows: Table)
      ensures this.nominal == nominal && this.rows == rows
    {
      this.nominal, this.rows := nominal, rows;
    }

    method WriteOpen(id: string, t: Entry)
      modifies this`rows
      ensures rows == old(rows)[id := UpsertOpen(Find(old(rows), id), t)]
    {
      if id !in rows {
        rows := rows[id := NewRow(t)];
      } else {
        rows := rows[id := rows[id].(symbol := t.symbol, side := t.side, quantity := t.quantity,
            entryDate := t.entryDate)];
      }
    }

    method AddClose(id: string, t: CloseFill)
      modifies this`rows
      ensures rows == old(rows)[id := ApplyClose(Find(old(rows), id), nominal, t)]
    {
      var existing := Find(rows, id);
      var booked := if existing.Some? then existing.value else NewRow(t.entry);
      var gross := RoundMoney(OrElse(booked.grossProfit, 0.0) + t.gross);
      var commission := RoundMoney(OrElse(booked.commission, 0.0) + t.commission);
      var swap := RoundMoney(OrElse(booked.swap, 0.0) + t.swap);
      var pnl := RoundMoney(gross + commission + swap);
      var risk := RiskOf(existing);
      var exitDate, result := None, None;
      if t.fullyClosed {
        exitDate, result := Some(t.exitDate), Some(GetTradeResult(pnl, nominal));
      }
      rows := rows[id := SetRealized(booked.(symbol := t.entry.symbol, side := t.entry.side), risk, nominal,
                                     gross, commission, swap, pnl, gross, exitDate, result)];
    }

    method BackfillPositionRow(id: string, p: BackfillPosition)
      modifies this`rows
      ensures rows == old(rows)[id := WriteBackfill(Find(old(rows), id), nominal, p)]
    {
      if !p.fullyClosed {
        WriteOpen(id, p.entry);
      } else {
        var existing := Find(rows, id);
        var gross, commission, swap := RoundMoney(p.gross), RoundMoney(p.commission), RoundMoney(p.swap);
        var pnl := RoundMoney(gross + commission + swap);
        var data := Base(existing, p.entry).(symbol := p.entry.symbol, side := p.entry.side);
        rows := rows[id := SetRealized(data, RiskOf(existing), nominal, gross, commission, swap, pnl, gross, p.exitDate,
                                       Some(GetTradeResult(pnl, nominal)))];
      }
    }
  }

  /** The writer TradeLocker and MetaApi share in shape; they differ in what `WriteClosed` books. */
  class PositionWriter {
    const broker: Broker
    const nominal: real
    var rows: Table

    constructor (broker: Broker, nominal: real, rows: Table)
      ensures this.broker == broker && this.nominal == nominal && this.rows == rows
    {
      this.broker, this.nominal, this.rows := broker, nominal, rows;
    }

    method WriteOpen(id: string, t: Entry)
      modifies this`rows
      ensures rows == old(rows)[id := UpsertOpen(Find(old(rows), id), t)]
    {
      var row := if id in rows then rows[id] else NewRow(t);
      rows := rows[id := row.(symbol := t.symbol, side := t.side, quantity := t.quantity, entryDate := t.entryDate)];
    }

    method WriteClose(id: string, c: Closed)
      modifies this`rows
      ensures rows == old(rows)[id := WriteClosed(broker, Find(old(rows), id), nominal, c)]
    {
      var existing := Find(rows, id);
      WriteOpen(id, c.entry);
      var gross, commission, swap := RoundMoney(c.gross), RoundMoney(c.commission), RoundMoney(c.swap);
      var net := gross + commission + swap;
      if broker == TradeLocker && c.net.Some? { net := c.net.value; }
      var pnl := RoundMoney(net);
      rows := rows[id := SetRealized(rows[id], RiskOf(existing), nominal, gross, commission, swap, pnl,
                                     if broker == TradeLocker then pnl else gross, Some(c.exitDate),
                                     Some(GetTradeResult(pnl, nominal)))];
    }

    /** Tells whether a row was updated. */
    method WriteFloating(id: string, unrealized: real) returns (updated: bool)
      modifies this`rows
      ensures updated == (id in old(rows) && old(rows)[id].exitDate.None?)
      ensures updated ==> WriteUnrealized(Find(old(rows), id), nominal, unrealized).Some?
      ensures rows == if updated
                      then old(rows)[id := WriteUnrealized(Find(old(rows), id), nominal, unrealized).value]
                      else old(rows)
    {
      updated := id in rows && rows[id].exitDate.None?;
      if updated {
        var risk := RiskOf(Some(rows[id]));
        var pct := ProfitPercentage(unrealized, nominal);
        var rr := TradeRr(unrealized, pct, nominal, risk);
        rows := rows[id := rows[id].(pnl := Some(unrealized), profitPercentage := pct, rr := rr, risk := Some(risk))];
      }
    }
  }
}
